/**
 * The conversation log and one chat turn (`handleSendMessage`), with timers
 * abstracted away: a turn is the ordered sequence of its effects on the log.
 * Ids and timestamps of new messages, and every random draw, are parameters.
 */
module App {
  import opened Wrappers
  import opened JsRuntime
  import opened Types
  import GeminiService

  const InitialId := "init-1"
  const Greeting := "有事？"
  const NoReplyNotice := "对方已读但是决定不答复了。"

  /** `INITIAL_MESSAGES`: the bot's greeting, stamped once when the module loads. */
  function InitialMessages(loadTime: int): seq<Message> {
    [Message(InitialId, Greeting, Bot, loadTime, None, None, None, None)]
  }

  /** The state a turn reads and writes: the log, the input box and the image preview. */
  datatype ChatState = ChatState(messages: seq<Message>, inputText: string, previewImage: Option<string>)

  function InitialState(loadTime: int): ChatState {
    ChatState(InitialMessages(loadTime), "", None)
  }

  /** The id and timestamp a new message gets (`generateId()`, `Date.now()`). */
  datatype Stamp = Stamp(id: string, time: int)

  /** The draws one turn consumes: the user message's stamp, and one stamp per
      bot or system message it appends, numbered from 0. */
  datatype TurnDraws = TurnDraws(userId: string, userTime: int, replyStamp: nat -> Stamp)

  /** Two versions of a message that differ at most in status and interest level. */
  predicate SameMessage(a: Message, b: Message) {
    a.(status := b.status, interestLevel := b.interestLevel) == b
  }

  predicate FreshId(log: seq<Message>, id: string) {
    forall i :: 0 <= i < |log| ==> log[i].id != id
  }

  // ---------------------------------------------------------------------------
  // Submitting
  // ---------------------------------------------------------------------------

  /** The submit guard: there is text left after trimming, or an image. */
  predicate CanSubmit(inputText: string, previewImage: Option<string>) {
    Trim(inputText) != "" || Truthy(previewImage)
  }

  /** Whitespace-only text and no image is rejected. */
  lemma BlankInputRejected(inputText: string, previewImage: Option<string>)
    requires AllWhiteSpace(inputText) && !Truthy(previewImage)
    ensures !CanSubmit(inputText, previewImage)
  {
  }

  /** `previewImage || undefined`. */
  function AttachedImage(previewImage: Option<string>): (image: Option<string>)
    ensures image.Some? <==> Truthy(previewImage)
    ensures image.Some? ==> image == previewImage
  {
    if Truthy(previewImage) then previewImage else None
  }

  /** Appends the user's message as Delivered, leaving the earlier log as it was. */
  function AppendUserMessage(log: seq<Message>, id: string, time: int, text: string,
                             image: Option<string>): (r: seq<Message>)
    ensures |r| == |log| + 1 && r[..|log|] == log
    ensures var m := r[|log|];
            && m.id == id && m.timestamp == time && m.text == text && m.imageUrl == image
            && m.sender == User && m.status == Some(Delivered)
            && m.interestLevel == None && m.thoughts == None
  {
    log + [Message(id, text, User, time, Some(Delivered), None, None, image)]
  }

  // ---------------------------------------------------------------------------
  // Read receipts and annotation
  // ---------------------------------------------------------------------------

  function MarkOneRead(m: Message): Message {
    if m.sender == User && m.status != Some(Read) then m.(status := Some(Read)) else m
  }

  /** Batch-marks every user message Read. Nothing else changes, and no status moves backward. */
  function MarkRead(log: seq<Message>): (r: seq<Message>)
    ensures |r| == |log|
    ensures forall i :: 0 <= i < |log| ==> r[i].(status := log[i].status) == log[i]
    ensures forall i :: 0 <= i < |log| && log[i].sender == User ==> r[i].status == Some(Read)
    ensures forall i :: 0 <= i < |log| && log[i].sender != User ==> r[i] == log[i]
    ensures forall i :: 0 <= i < |log| ==> StatusRank(log[i].status) <= StatusRank(r[i].status)
  {
    seq(|log|, i requires 0 <= i < |log| => MarkOneRead(log[i]))
  }

  /** Marking read twice is marking read once. */
  lemma MarkReadIdempotent(log: seq<Message>)
    ensures MarkRead(MarkRead(log)) == MarkRead(log)
  {
  }

  /** Puts `level` on the messages whose id is `id`; every other message stays as it was. */
  function Annotate(log: seq<Message>, id: string, level: int): (r: seq<Message>)
    ensures |r| == |log|
    ensures forall i :: 0 <= i < |log| ==> r[i].(interestLevel := log[i].interestLevel) == log[i]
    ensures forall i :: 0 <= i < |log| ==> (r[i] == log[i] <==> log[i].id != id || log[i].interestLevel == Some(level))
    ensures forall i :: 0 <= i < |log| && log[i].id == id ==> r[i].interestLevel == Some(level)
  {
    seq(|log|, i requires 0 <= i < |log| => if log[i].id == id then log[i].(interestLevel := Some(level)) else log[i])
  }

  // ---------------------------------------------------------------------------
  // Replies
  // ---------------------------------------------------------------------------

  /** `response.replies || []`. */
  function RepliesOf(response: BotResponse): seq<string> {
    response.replies.GetOr([])
  }

  /** The bot messages of a burst: one per reply, in order, thoughts on the first only. */
  function ReplyMessages(replies: seq<string>, thoughts: string, stamp: nat -> Stamp): (ms: seq<Message>)
    ensures |ms| == |replies|
    ensures forall i :: 0 <= i < |ms| ==>
      && ms[i].sender == Bot && ms[i].text == replies[i]
      && ms[i].id == stamp(i).id && ms[i].timestamp == stamp(i).time
      && ms[i].status == None && ms[i].interestLevel == None && ms[i].imageUrl == None
      && ms[i].thoughts == (if i == 0 then Some(thoughts) else None)
  {
    seq(|replies|, i requires 0 <= i < |replies| =>
      Message(stamp(i).id, replies[i], Bot, stamp(i).time, None, None, if i == 0 then Some(thoughts) else None, None))
  }

  /** The placeholder announcing that the persona read the message and chose not to answer. */
  function NoReplyMessage(stamp: Stamp, thoughts: string): Message {
    Message(stamp.id, NoReplyNotice, System, stamp.time, None, None, Some(thoughts), None)
  }

  /** Appends the turn's outcome: one system placeholder carrying the thoughts
      when there are no replies, otherwise one bot message per reply. */
  function DeliverReplies(log: seq<Message>, response: BotResponse, stamp: nat -> Stamp): (r: seq<Message>)
    ensures |r| > |log| && r[..|log|] == log
    ensures RepliesOf(response) == [] ==>
      && |r| == |log| + 1
      && r[|log|].sender == System && r[|log|].text == NoReplyNotice
      && r[|log|].thoughts == Some(response.thoughts)
    ensures RepliesOf(response) != [] ==>
      && |r| == |log| + |RepliesOf(response)|
      && (forall i :: |log| <= i < |r| ==> r[i].sender == Bot && r[i].text == RepliesOf(response)[i - |log|])
      && r[|log|].thoughts == Some(response.thoughts)
      && (forall i :: |log| < i < |r| ==> r[i].thoughts == None)
  {
    var replies := RepliesOf(response);
    if replies == [] then log + [NoReplyMessage(stamp(0), response.thoughts)]
    else log + ReplyMessages(replies, response.thoughts, stamp)
  }

  /** The texts of the messages a burst appends, read back from the log, are the replies. */
  lemma RepliesReadBack(log: seq<Message>, response: BotResponse, stamp: nat -> Stamp)
    requires RepliesOf(response) != []
    ensures var appended := DeliverReplies(log, response, stamp)[|log|..];
            seq(|appended|, i requires 0 <= i < |appended| => appended[i].text) == RepliesOf(response)
  {
  }

  // ---------------------------------------------------------------------------
  // Pacing
  // ---------------------------------------------------------------------------

  const MsPerChar := 60
  const MinTypingMs := 800
  const MaxTypingMs := 3000

  /** How long the typing indicator shows before a reply: 60 ms per UTF-16 code
      unit, clamped to [800, 3000]. */
  function TypingDuration(replyText: string): (ms: int)
    ensures MinTypingMs <= ms <= MaxTypingMs
    ensures ms == Utf16Length(replyText) * MsPerChar <==> 14 <= Utf16Length(replyText) <= 50
    ensures ms == MinTypingMs <==> Utf16Length(replyText) <= 13
    ensures ms == MaxTypingMs <==> Utf16Length(replyText) >= 50
  {
    var raw := Utf16Length(replyText) * MsPerChar;
    var floored := if raw > MinTypingMs then raw else MinTypingMs;
    if floored < MaxTypingMs then floored else MaxTypingMs
  }

  /** One character types at the floor, twenty in 1.2 seconds, sixty at the ceiling. */
  lemma TypingDurationExamples()
    ensures TypingDuration("x") == 800
    ensures TypingDuration(seq(20, _ => 'a')) == 1200
    ensures TypingDuration(seq(60, _ => 'a')) == 3000
  {
  }

  /** The delay before the persona reads the message, from one draw: [1500, 6000) ms. */
  function ReadDelay(draw: Draw): (ms: real)
    ensures 1500.0 <= ms < 6000.0
  {
    draw * 4500.0 + 1500.0
  }

  /** The pause before each reply's typing phase, from one draw: [200, 700) ms. */
  function ReplyPause(draw: Draw): (ms: real)
    ensures 200.0 <= ms < 700.0
  {
    draw * 500.0 + 200.0
  }

  /** Every read delay in [1500, 6000) comes from exactly one draw, and larger draws wait longer. */
  lemma ReadDelayCoversRange(ms: real)
    requires 1500.0 <= ms < 6000.0
    ensures var d: Draw := (ms - 1500.0) / 4500.0; ReadDelay(d) == ms
    ensures forall d1: Draw, d2: Draw :: d1 < d2 ==> ReadDelay(d1) < ReadDelay(d2)
  {
  }

  /** Every reply pause in [200, 700) comes from exactly one draw, and larger draws pause longer. */
  lemma ReplyPauseCoversRange(ms: real)
    requires 200.0 <= ms < 700.0
    ensures var d: Draw := (ms - 200.0) / 500.0; ReplyPause(d) == ms
    ensures forall d1: Draw, d2: Draw :: d1 < d2 ==> ReplyPause(d1) < ReplyPause(d2)
  {
  }

  // ---------------------------------------------------------------------------
  // The turn
  // ---------------------------------------------------------------------------

  /** The log effects of a submitted turn, in order: append the user's message,
      mark user messages read, score the user's message with the verdict's level,
      then deliver the replies. */
  function RecordTurn(log: seq<Message>, draws: TurnDraws, text: string, image: Option<string>,
                      response: BotResponse): seq<Message> {
    var sent := AppendUserMessage(log, draws.userId, draws.userTime, text, image);
    var read := MarkRead(sent);
    var scored := Annotate(read, draws.userId, response.interestLevel);
    DeliverReplies(scored, response, draws.replyStamp)
  }

  /** The verdict a submitted turn acts on. The oracle sees the log as it was
      before the user's message was appended. */
  function TurnVerdict(st: ChatState, oracle: GeminiService.Oracle): BotResponse {
    GeminiService.GenerateBotResponse(oracle, st.messages, Trim(st.inputText), AttachedImage(st.previewImage))
  }

  /** `handleSendMessage`: the guard, then the turn's log effects, clearing the
      input box and the preview. */
  function SendMessage(st: ChatState, draws: TurnDraws, oracle: GeminiService.Oracle): (r: ChatState)
    ensures !CanSubmit(st.inputText, st.previewImage) ==> r == st
    ensures CanSubmit(st.inputText, st.previewImage) ==>
      && r.inputText == "" && r.previewImage == None
      && r.messages == RecordTurn(st.messages, draws, Trim(st.inputText), AttachedImage(st.previewImage),
                                  TurnVerdict(st, oracle))
  {
    if !CanSubmit(st.inputText, st.previewImage) then st
    else
      var text := Trim(st.inputText);
      var image := AttachedImage(st.previewImage);
      ChatState(RecordTurn(st.messages, draws, text, image, TurnVerdict(st, oracle)), "", None)
  }

  /** A turn keeps every earlier message in place, changing at most its status
      (never backward) and, for a clashing id, its interest level. */
  lemma TurnKeepsHistory(log: seq<Message>, draws: TurnDraws, text: string, image: Option<string>,
                         response: BotResponse)
    ensures var r := RecordTurn(log, draws, text, image, response);
            && |r| >= |log| + 2
            && (forall i :: 0 <= i < |log| ==> SameMessage(r[i], log[i]))
            && (forall i :: 0 <= i < |log| ==> StatusRank(log[i].status) <= StatusRank(r[i].status))
            && (forall i :: 0 <= i < |log| && log[i].sender == User ==> r[i].status == Some(Read))
            && (FreshId(log, draws.userId) ==>
                  forall i :: 0 <= i < |log| ==> r[i].interestLevel == log[i].interestLevel)
  {
  }

  /** The user's message lands right after the earlier log: the given text and
      image, Read, and scored with the verdict's level. */
  lemma TurnAppendsUserMessage(log: seq<Message>, draws: TurnDraws, text: string, image: Option<string>,
                               response: BotResponse)
    ensures var r := RecordTurn(log, draws, text, image, response);
            && |r| > |log|
            && r[|log|] == Message(draws.userId, text, User, draws.userTime, Some(Read),
                                   Some(response.interestLevel), None, image)
  {
  }

  /** After the user's message come either one system placeholder with the
      verdict's thoughts, or the verdict's replies as bot messages, in order. */
  lemma TurnAppendsReplies(log: seq<Message>, draws: TurnDraws, text: string, image: Option<string>,
                           response: BotResponse)
    ensures var r := RecordTurn(log, draws, text, image, response);
            var n := |log| + 1;
            var replies := RepliesOf(response);
            && (replies == [] ==>
                  r == r[..n] + [NoReplyMessage(draws.replyStamp(0), response.thoughts)])
            && (replies != [] ==>
                  r == r[..n] + ReplyMessages(replies, response.thoughts, draws.replyStamp))
  {
  }

  /** A submitted turn whose oracle call fails still reads and scores the message
      as neutral, and answers with exactly one filler bot message. */
  lemma FailedCallTurn(st: ChatState, draws: TurnDraws, oracle: GeminiService.Oracle)
    requires CanSubmit(st.inputText, st.previewImage)
    requires GeminiService.ParsedVerdict(oracle, GeminiService.RequestFor(
               oracle, st.messages, Trim(st.inputText), AttachedImage(st.previewImage))).None?
    ensures var log := SendMessage(st, draws, oracle).messages;
            var n := |st.messages|;
            && |log| == n + 2
            && log[n].interestLevel == Some(5)
            && log[n + 1].sender == Bot && log[n + 1].text == "..."
            && log[n + 1].thoughts == Some("Error occurred")
  {
    var response := TurnVerdict(st, oracle);
    assert response == GeminiService.Fallback;
    TurnAppendsUserMessage(st.messages, draws, Trim(st.inputText), AttachedImage(st.previewImage), response);
  }

  /** A turn with no replies appends the user's message and one system notice, and no bot message. */
  lemma SilentTurn(log: seq<Message>, draws: TurnDraws, text: string, image: Option<string>,
                   response: BotResponse)
    requires RepliesOf(response) == []
    ensures var r := RecordTurn(log, draws, text, image, response);
            && |r| == |log| + 2
            && r[|log| + 1].sender == System
            && (forall i :: |log| <= i < |r| ==> r[i].sender != Bot)
  {
  }

  /** A submitted turn scored level 1 is always answered by the silent
      placeholder, whatever the draw. */
  lemma LevelOneTurnIsSilent(st: ChatState, draws: TurnDraws, oracle: GeminiService.Oracle)
    requires CanSubmit(st.inputText, st.previewImage)
    requires TurnVerdict(st, oracle).interestLevel == 1
    ensures var log := SendMessage(st, draws, oracle).messages;
            && |log| == |st.messages| + 2
            && log[|st.messages| + 1].sender == System
            && (forall i :: |st.messages| <= i < |log| ==> log[i].sender != Bot)
  {
    var text := Trim(st.inputText);
    var image := AttachedImage(st.previewImage);
    var response := TurnVerdict(st, oracle);
    GeminiService.LevelOneHasNoReplies(oracle, st.messages, text, image);
    SilentTurn(st.messages, draws, text, image, response);
  }

  /** A turn keeps the optional fields where they belong, provided the new user
      message's id is fresh. */
  lemma TurnKeepsLogWellFormed(log: seq<Message>, draws: TurnDraws, text: string, image: Option<string>,
                               response: BotResponse)
    requires WellFormedLog(log)
    requires FreshId(log, draws.userId)
    ensures WellFormedLog(RecordTurn(log, draws, text, image, response))
  {
  }

  /** Appended replies and placeholders are never user messages and carry no status or level. */
  lemma DeliverRepliesKeepsWellFormed(log: seq<Message>, response: BotResponse, stamp: nat -> Stamp)
    requires WellFormedLog(log)
    ensures WellFormedLog(DeliverReplies(log, response, stamp))
  {
  }

  // ---------------------------------------------------------------------------
  // Reset
  // ---------------------------------------------------------------------------

  /** `handleResetChat`: when the user confirms, the log returns to the initial
      greeting and the input and preview are cleared; otherwise nothing changes. */
  function ResetChat(st: ChatState, confirmed: bool, loadTime: int): (r: ChatState)
    ensures !confirmed ==> r == st
    ensures confirmed ==>
      && |r.messages| == 1
      && r.messages[0].id == InitialId && r.messages[0].sender == Bot && r.messages[0].text == Greeting
      && r.messages[0].timestamp == loadTime
      && r.inputText == "" && r.previewImage == None
  {
    if confirmed then ChatState(InitialMessages(loadTime), "", None) else st
  }

  /** A confirmed reset forgets everything: any two states reset to the same
      well-formed state, the one the app starts in. */
  lemma ResetForgetsHistory(a: ChatState, b: ChatState, loadTime: int)
    ensures ResetChat(a, true, loadTime) == ResetChat(b, true, loadTime) == InitialState(loadTime)
    ensures WellFormedLog(ResetChat(a, true, loadTime).messages)
  {
  }

  // ---------------------------------------------------------------------------
  // Sessions
  // ---------------------------------------------------------------------------

  /** What the user does: type a message (and perhaps pick an image) and send it,
      or open the menu and answer the reset confirmation. */
  datatype Action =
    | Send(inputText: string, previewImage: Option<string>, draws: TurnDraws, oracle: GeminiService.Oracle)
    | Reset(confirmed: bool)

  function Step(st: ChatState, action: Action, loadTime: int): ChatState {
    match action
    case Send(text, preview, draws, oracle) =>
      SendMessage(st.(inputText := text, previewImage := preview), draws, oracle)
    case Reset(confirmed) => ResetChat(st, confirmed, loadTime)
  }

  /** The state after a sequence of actions, one turn settling before the next starts. */
  function Run(st: ChatState, actions: seq<Action>, loadTime: int): ChatState
    decreases |actions|
  {
    if actions == [] then st else Run(Step(st, actions[0], loadTime), actions[1..], loadTime)
  }

  /** `later` grew from `earlier` by appending messages, the earlier ones staying
      in place with at most their status advanced and their level set. */
  predicate Extends(earlier: seq<Message>, later: seq<Message>) {
    && |earlier| <= |later|
    && forall i :: 0 <= i < |earlier| ==>
         SameMessage(later[i], earlier[i]) && StatusRank(earlier[i].status) <= StatusRank(later[i].status)
  }

  lemma ExtendsTransitive(a: seq<Message>, b: seq<Message>, c: seq<Message>)
    requires Extends(a, b) && Extends(b, c)
    ensures Extends(a, c)
  {
    forall i | 0 <= i < |a|
      ensures SameMessage(c[i], a[i])
    {
      assert c[i].(status := b[i].status, interestLevel := b[i].interestLevel) == b[i];
      assert b[i].(status := a[i].status, interestLevel := a[i].interestLevel) == a[i];
    }
  }

  /** Sending never rewrites the log, whether or not the guard lets the turn through. */
  lemma SendExtends(st: ChatState, action: Action, loadTime: int)
    requires action.Send?
    ensures Extends(st.messages, Step(st, action, loadTime).messages)
  {
    var typed := st.(inputText := action.inputText, previewImage := action.previewImage);
    if CanSubmit(typed.inputText, typed.previewImage) {
      TurnKeepsHistory(st.messages, action.draws, Trim(typed.inputText), AttachedImage(typed.previewImage),
                       TurnVerdict(typed, action.oracle));
    }
  }

  /** Between resets the log is append-only: any run of sends keeps every earlier
      message in place, its content intact and its status never moving backward. */
  lemma {:induction false} SessionIsAppendOnly(st: ChatState, actions: seq<Action>, loadTime: int)
    requires forall k :: 0 <= k < |actions| ==> actions[k].Send?
    ensures Extends(st.messages, Run(st, actions, loadTime).messages)
    decreases |actions|
  {
    if actions != [] {
      var next := Step(st, actions[0], loadTime);
      SendExtends(st, actions[0], loadTime);
      SessionIsAppendOnly(next, actions[1..], loadTime);
      ExtendsTransitive(st.messages, next.messages, Run(next, actions[1..], loadTime).messages);
    }
  }

  /** Running two sequences of actions is running the first, then the second. */
  lemma {:induction false} RunConcat(st: ChatState, first: seq<Action>, second: seq<Action>, loadTime: int)
    ensures Run(st, first + second, loadTime) == Run(Run(st, first, loadTime), second, loadTime)
    decreases |first|
  {
    if first != [] {
      assert (first + second)[0] == first[0];
      assert (first + second)[1..] == first[1..] + second;
      RunConcat(Step(st, first[0], loadTime), first[1..], second, loadTime);
    } else {
      assert first + second == second;
    }
  }

  /** After a confirmed reset followed only by sends, the log starts with the
      greeting: id `init-1`, from the bot, "有事？". */
  lemma GreetingLeadsAfterReset(st: ChatState, actions: seq<Action>, k: nat, loadTime: int)
    requires k < |actions| && actions[k] == Reset(true)
    requires forall j :: k < j < |actions| ==> actions[j].Send?
    ensures var log := Run(st, actions, loadTime).messages;
            && |log| >= 1
            && log[0].id == InitialId && log[0].sender == Bot && log[0].text == Greeting
  {
    var before := Run(st, actions[..k], loadTime);
    var rest := actions[k + 1..];
    assert actions == actions[..k] + ([actions[k]] + rest);
    RunConcat(st, actions[..k], [actions[k]] + rest, loadTime);
    RunConcat(before, [actions[k]], rest, loadTime);
    var reset := Run(before, [actions[k]], loadTime);
    assert reset == Step(before, actions[k], loadTime) by {
      assert [actions[k]][1..] == [];
    }
    assert reset.messages == InitialMessages(loadTime);
    var final := Run(reset, rest, loadTime);
    assert Run(st, actions, loadTime) == final;
    SessionIsAppendOnly(reset, rest, loadTime);
    assert SameMessage(final.messages[0], reset.messages[0]);
  }
}
