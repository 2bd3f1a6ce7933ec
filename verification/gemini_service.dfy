/**
 * `generateBotResponse`: builds the oracle request from the recent history and
 * the latest user message, treats the SDK call and the JSON parse as opaque
 * results that may fail, applies the low-interest reply gate to a parsed
 * verdict, and substitutes a fixed neutral verdict on any failure.
 */
module GeminiService {
  import opened Wrappers
  import opened JsRuntime
  import opened Types

  // ---------------------------------------------------------------------------
  // Request
  // ---------------------------------------------------------------------------

  /** How many of the most recent messages are sent as context. */
  const HistoryLimit: nat := 10

  /** `history.slice(-10)`: the last ten messages, or all of them when there are fewer. */
  function RecentHistory(history: seq<Message>): (recent: seq<Message>)
    ensures |recent| == if |history| < HistoryLimit then |history| else HistoryLimit
    ensures forall i :: 0 <= i < |recent| ==> recent[i] == history[|history| - |recent| + i]
  {
    if |history| <= HistoryLimit then history else history[|history| - HistoryLimit..]
  }

  /** The conversation role of a message's sender: bot and system messages both speak as the model. */
  function RoleOf(sender: Sender): (role: string)
    ensures role == "user" <==> sender == User
    ensures role == "user" || role == "model"
  {
    if sender == User then "user" else "model"
  }

  datatype Part = Text(text: string) | InlineData(mimeType: string, data: string)

  datatype Content = Content(role: string, parts: seq<Part>)

  /** What the SDK is asked: the formatted current time (which goes into the
      system instruction) and the conversation contents. */
  datatype Request = Request(currentTime: string, contents: seq<Content>)

  /** The image part for a data URL. The payload is `url.split(',')[1]` and the
      MIME type is `url.split(';')[0].split(':')[1]`; the part is attached only
      when both are present and non-empty. */
  function InlineImage(url: string): (part: Option<Part>)
    ensures var data := SegmentAfter(url, ',');
            var mime := SegmentAfter(url[..IndexOf(url, ';')], ':');
            && (part.Some? <==> Truthy(data) && Truthy(mime))
            && (part.Some? ==> part.value == InlineData(mime.value, data.value))
  {
    SecondPiece(url, ',');
    FirstPiece(url, ';');
    SecondPiece(Split(url, ';')[0], ':');
    var data := Piece(url, ',', 1);
    var mime := Piece(Split(url, ';')[0], ':', 1);
    if Truthy(data) && Truthy(mime) then Some(InlineData(mime.value, data.value)) else None
  }

  /** The data URL `FileReader.readAsDataURL` produces for a MIME type and a base64 payload. */
  function DataUrl(mime: string, data: string): string {
    "data:" + mime + ";base64," + data
  }

  /** The payload of a data URL is everything after its only ','. */
  lemma DataUrlPayload(mime: string, data: string)
    requires Excludes(mime, ',') && Excludes(data, ',')
    ensures SegmentAfter(DataUrl(mime, data), ',') == Some(data)
  {
    var url := DataUrl(mime, data);
    var head := "data:" + mime + ";base64";
    assert url == head + [','] + data;
    assert Excludes(head, ',') by {
      forall i | 0 <= i < |head| ensures head[i] != ',' {
        if 5 <= i < 5 + |mime| { assert head[i] == mime[i - 5]; }
      }
    }
    IndexOfAfterFree(head, ',', data);
    assert url[|head| + 1..] == data;
    IndexOfFree(data, ',');
    assert data[..|data|] == data;
  }

  /** The MIME type of a data URL sits between its first ':' and its first ';'. */
  lemma DataUrlMime(mime: string, data: string)
    requires Excludes(mime, ':') && Excludes(mime, ';')
    ensures var url := DataUrl(mime, data);
            SegmentAfter(url[..IndexOf(url, ';')], ':') == Some(mime)
  {
    var url := DataUrl(mime, data);
    var scheme := "data:" + mime;
    assert url == scheme + [';'] + ("base64," + data);
    assert Excludes(scheme, ';') by {
      forall i | 0 <= i < |scheme| ensures scheme[i] != ';' {
        if 5 <= i { assert scheme[i] == mime[i - 5]; }
      }
    }
    IndexOfAfterFree(scheme, ';', "base64," + data);
    assert url[..|scheme|] == scheme;
    assert scheme == "data" + [':'] + mime;
    IndexOfAfterFree("data", ':', mime);
    assert scheme[5..] == mime;
    IndexOfFree(mime, ':');
    assert mime[..|mime|] == mime;
  }

  /** An empty file's data URL has an empty payload, so it gives no part. */
  lemma InlineImageOfEmptyFile(mime: string)
    requires Excludes(mime, ',')
    ensures InlineImage(DataUrl(mime, "")) == None
  {
    var head := "data:" + mime + ";base64";
    assert Excludes(head, ',') by {
      forall i | 0 <= i < |head|
        ensures head[i] != ','
      {
        if 5 <= i < 5 + |mime| { assert head[i] == mime[i - 5]; }
      }
    }
    assert DataUrl(mime, "") == head + [','] + [] + [];
    SegmentAfterField(head, ',', [], []);
  }

  /** Reading a well-formed data URL back recovers its MIME type and payload. */
  lemma InlineImageOfDataUrl(mime: string, data: string)
    requires mime != "" && data != ""
    requires Excludes(mime, ':') && Excludes(mime, ';') && Excludes(mime, ',')
    requires Excludes(data, ',')
    ensures InlineImage(DataUrl(mime, data)) == Some(InlineData(mime, data))
  {
    DataUrlPayload(mime, data);
    DataUrlMime(mime, data);
  }

  /** The parts an optional image contributes: none when it is absent or empty. */
  function ImageParts(imageUrl: Option<string>): (parts: seq<Part>)
    ensures |parts| <= 1
    ensures parts != [] <==> Truthy(imageUrl) && InlineImage(imageUrl.value).Some?
    ensures parts != [] ==> parts == [InlineImage(imageUrl.value).value]
  {
    if Truthy(imageUrl) then
      match InlineImage(imageUrl.value)
      case Some(p) => [p]
      case None => []
    else []
  }

  /** A message's text prefixed with its bracketed time, `[time] text`. */
  function Stamped(time: string, text: string): string {
    "[" + time + "] " + text
  }

  /** One history message as conversation content. */
  function HistoryContent(m: Message, formatTime: int -> string): Content {
    Content(RoleOf(m.sender), [Text(Stamped(formatTime(m.timestamp), m.text))] + ImageParts(m.imageUrl))
  }

  /** The contents sent to the SDK: the recent history in order, then the latest
      user message stamped with the current time. */
  function BuildContents(history: seq<Message>, latestText: string, latestImage: Option<string>,
                         now: string, formatTime: int -> string): (contents: seq<Content>)
    ensures var recent := RecentHistory(history);
            && |contents| == |recent| + 1
            && (forall i :: 0 <= i < |recent| ==>
                  && contents[i].role == RoleOf(recent[i].sender)
                  && |contents[i].parts| >= 1
                  && contents[i].parts[0] == Text(Stamped(formatTime(recent[i].timestamp), recent[i].text))
                  && contents[i].parts[1..] == ImageParts(recent[i].imageUrl))
            && contents[|recent|] == Content("user", [Text(Stamped(now, latestText))] + ImageParts(latestImage))
  {
    var recent := RecentHistory(history);
    var entries := seq(|recent|, i requires 0 <= i < |recent| => HistoryContent(recent[i], formatTime));
    var contents := entries + [Content("user", [Text(Stamped(now, latestText))] + ImageParts(latestImage))];
    assert forall i :: 0 <= i < |recent| ==> contents[i] == HistoryContent(recent[i], formatTime);
    contents
  }

  // ---------------------------------------------------------------------------
  // Reply gate
  // ---------------------------------------------------------------------------

  const Level2Cutoff: real := 0.6
  const Level3Cutoff: real := 0.3

  const Level1Trace := " [Logic: Level 1 forced no-reply]"
  const Level2SuppressedTrace := " [Logic: Level 2 RNG rolled < 0.6, reply suppressed]"
  const Level2AllowedTrace := " [Logic: Level 2 RNG rolled >= 0.6, reply allowed]"
  const Level3SuppressedTrace := " [Logic: Level 3 RNG rolled < 0.3, reply suppressed]"
  const Level3AllowedTrace := " [Logic: Level 3 RNG rolled >= 0.3, reply allowed]"

  /** The chance that a verdict of this level has its replies discarded, as the
      gate's comments give it: always at level 1, 60% at level 2, 30% at level 3,
      never otherwise. */
  function SuppressionChance(level: int): real {
    if level == 1 then 1.0
    else if level == 2 then 0.6
    else if level == 3 then 0.3
    else 0.0
  }

  /** The trace the gate appends to the thoughts for a level in 1..3, naming the
      level and whether its replies were suppressed. */
  function Trace(level: int, suppressed: bool): string {
    if level == 1 then Level1Trace
    else if level == 2 then (if suppressed then Level2SuppressedTrace else Level2AllowedTrace)
    else if suppressed then Level3SuppressedTrace else Level3AllowedTrace
  }

  /** Distinct branches of the gate leave distinct traces, so the thoughts
      record which branch was taken. */
  lemma TraceNamesBranch(l1: int, s1: bool, l2: int, s2: bool)
    requires 1 <= l1 <= 3 && 1 <= l2 <= 3
    requires (l1 == 1 ==> s1) && (l2 == 1 ==> s2)
    requires Trace(l1, s1) == Trace(l2, s2)
    ensures l1 == l2 && s1 == s2
  {
  }

  /** The low-interest gate on a parsed verdict, given the turn's single random
      draw. It discards the whole reply list exactly when the draw falls in the
      lowest `SuppressionChance` fraction of [0, 1), and extends the thoughts with
      a trace of the branch taken. */
  function ApplyReplyGate(parsed: BotResponse, draw: Draw): (gated: BotResponse)
    ensures gated.interestLevel == parsed.interestLevel
    ensures gated.userImpression == parsed.userImpression
    ensures draw < SuppressionChance(parsed.interestLevel) ==> gated.replies == Some([])
    ensures draw >= SuppressionChance(parsed.interestLevel) ==> gated.replies == parsed.replies
    ensures parsed.thoughts <= gated.thoughts
    ensures gated.thoughts == parsed.thoughts <==> !(1 <= parsed.interestLevel <= 3)
    ensures !(1 <= parsed.interestLevel <= 3) ==> gated == parsed
    ensures 1 <= parsed.interestLevel <= 3 ==>
              gated.thoughts == parsed.thoughts + Trace(parsed.interestLevel, draw < SuppressionChance(parsed.interestLevel))
  {
    if parsed.interestLevel == 1 then
      parsed.(replies := Some([]), thoughts := parsed.thoughts + Level1Trace)
    else if parsed.interestLevel == 2 then
      if draw < Level2Cutoff then
        parsed.(replies := Some([]), thoughts := parsed.thoughts + Level2SuppressedTrace)
      else
        parsed.(thoughts := parsed.thoughts + Level2AllowedTrace)
    else if parsed.interestLevel == 3 then
      if draw < Level3Cutoff then
        parsed.(replies := Some([]), thoughts := parsed.thoughts + Level3SuppressedTrace)
      else
        parsed.(thoughts := parsed.thoughts + Level3AllowedTrace)
    else
      parsed
  }

  /** The gate keeps all replies or none: never a partial subset. */
  lemma GateIsAllOrNothing(parsed: BotResponse, draw: Draw)
    ensures ApplyReplyGate(parsed, draw).replies in {parsed.replies, Some([])}
  {
  }

  // ---------------------------------------------------------------------------
  // The call
  // ---------------------------------------------------------------------------

  /** The outcome of the SDK call: it threw, or it answered with a text that may be absent. */
  datatype ApiCall = Threw | Responded(text: Option<string>)

  /** Everything `generateBotResponse` takes from outside: the API key from the
      environment, the formatted current time, the time formatter for history
      stamps, the SDK call, `JSON.parse` (None when it throws), and the draw. */
  datatype Oracle = Oracle(
    apiKey: Option<string>,
    now: string,
    formatTime: int -> string,
    generate: Request -> ApiCall,
    parse: string -> Option<BotResponse>,
    draw: Draw)

  /** The verdict substituted for any failure. */
  const Fallback := BotResponse(5, Some(["..."]), "Error occurred", None)

  /** The request built for a turn. */
  function RequestFor(o: Oracle, history: seq<Message>, latestText: string, latestImage: Option<string>): Request {
    Request(o.now, BuildContents(history, latestText, latestImage, o.now, o.formatTime))
  }

  /** The parsed verdict of a call that went through, or None when the key is
      missing, the call threw, the answer was empty or the parse failed. */
  function ParsedVerdict(o: Oracle, request: Request): Option<BotResponse> {
    if !Truthy(o.apiKey) then None
    else
      match o.generate(request)
      case Threw => None
      case Responded(text) => if !Truthy(text) then None else o.parse(text.value)
  }

  /** `generateBotResponse(history, latestText, latestImage)`. */
  function GenerateBotResponse(o: Oracle, history: seq<Message>, latestText: string,
                               latestImage: Option<string>): (r: BotResponse)
    ensures var request := RequestFor(o, history, latestText, latestImage);
            && (!Truthy(o.apiKey) ==> r == Fallback)
            && (Truthy(o.apiKey) && o.generate(request) == Threw ==> r == Fallback)
            && (Truthy(o.apiKey) && o.generate(request).Responded? && !Truthy(o.generate(request).text) ==> r == Fallback)
            && (Truthy(o.apiKey) && o.generate(request).Responded? && Truthy(o.generate(request).text) ==>
                  match o.parse(o.generate(request).text.value)
                  case None => r == Fallback
                  case Some(p) => r == ApplyReplyGate(p, o.draw))
  {
    match ParsedVerdict(o, RequestFor(o, history, latestText, latestImage))
    case None => Fallback
    case Some(p) => ApplyReplyGate(p, o.draw)
  }

  /** Whatever happens, the verdict either is the fallback or carries the parsed
      verdict's level and impression, with its replies kept whole or dropped. */
  lemma ResponseShape(o: Oracle, history: seq<Message>, latestText: string, latestImage: Option<string>)
    ensures var r := GenerateBotResponse(o, history, latestText, latestImage);
            match ParsedVerdict(o, RequestFor(o, history, latestText, latestImage))
            case None => r == Fallback
            case Some(p) =>
              && r.interestLevel == p.interestLevel
              && r.userImpression == p.userImpression
              && r.replies in {p.replies, Some([])}
              && p.thoughts <= r.thoughts
  {
  }

  /** The fallback is a neutral level-5 verdict with one filler reply, within the
      documented level range. The service returns it without gating; that the
      gate would leave it unchanged is only a consistency fact. */
  lemma FallbackIsNeutral(draw: Draw)
    ensures InLevelRange(Fallback.interestLevel)
    ensures ApplyReplyGate(Fallback, draw) == Fallback
    ensures Fallback.replies.GetOr([]) == ["..."]
  {
  }

  /** A verdict in the documented level range yields a result in that range. */
  lemma ResponseLevelInRange(o: Oracle, history: seq<Message>, latestText: string, latestImage: Option<string>)
    requires forall t :: o.parse(t).Some? ==> InLevelRange(o.parse(t).value.interestLevel)
    ensures InLevelRange(GenerateBotResponse(o, history, latestText, latestImage).interestLevel)
  {
  }

  /** A level-1 result never carries replies: the fallback is level 5, so the
      result came through the gate, which empties a level-1 list. */
  lemma LevelOneHasNoReplies(o: Oracle, history: seq<Message>, latestText: string, latestImage: Option<string>)
    requires GenerateBotResponse(o, history, latestText, latestImage).interestLevel == 1
    ensures GenerateBotResponse(o, history, latestText, latestImage).replies == Some([])
  {
  }
}
