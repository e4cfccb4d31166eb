/** Content generation: choosing the system and user prompts, and extracting the
    JSON object from the model's reply. The chat completion endpoint is a
    function from the request to the reply, and the JSON decoder a partial
    function from text to the object's fields; neither is modelled further. */
module AiContent {
  import opened Common

  // ---------------------------------------------------------------- prompts

  /** Which of the three fixed system prompts is used. */
  datatype PromptKind = EducationalPrompt | MotivationPrompt | GeneralPrompt

  /** A system prompt: its template and the platform list written into it. */
  datatype SystemPrompt = SystemPrompt(kind: PromptKind, platforms: string)

  /** `platforms`, or `["linkedin"]` when the argument is `None`, joined by ", ". */
  function PlatformString(platforms: Option<seq<string>>): (s: string)
    ensures platforms.None? ==> s == "linkedin"
    ensures platforms.Some? ==> s == Join(platforms.value, ", ")
  {
    Join(platforms.GetOr(["linkedin"]), ", ")
  }

  /** Educational and motivation content have their own prompts; every other
      content type, including the unknown ones, gets the general prompt. */
  function PromptFor(contentType: string): (k: PromptKind)
    ensures k == EducationalPrompt <==> contentType == "educational"
    ensures k == MotivationPrompt <==> contentType == "motivation"
    ensures k == GeneralPrompt <==> contentType !in {"educational", "motivation"}
  {
    if contentType == "educational" then EducationalPrompt
    else if contentType == "motivation" then MotivationPrompt
    else GeneralPrompt
  }

  /** The fallback user prompt of the backend. */
  const BackendDefaultPrompt := "Create an engaging post based on your expertise."

  /** The fallback user prompt of the serverless app. */
  const ServerlessDefaultPrompt := "Create an engaging post."

  /** A non-empty custom prompt wins; otherwise a non-empty topic gives a prompt
      about that topic; otherwise the fixed default. */
  function UserPrompt(topic: Option<string>, customPrompt: Option<string>, default: string): (u: string)
    ensures Truthy(customPrompt) ==> u == customPrompt.value
    ensures !Truthy(customPrompt) && Truthy(topic) ==> u == "Create a post about: " + topic.value
    ensures !Truthy(customPrompt) && !Truthy(topic) ==> u == default
  {
    var byTopic := if Truthy(topic) then "Create a post about: " + topic.value else default;
    if Truthy(customPrompt) then customPrompt.value else byTopic
  }

  // ---------------------------------------------------------------- replies

  /** A decoded JSON value where the handlers expect text: a string, or a value
      of another type (`null`, a number, a boolean, a list, an object), named
      by its Python type. */
  datatype JsonValue = JsonText(text: string) | NotText(typeName: string)

  /** The fields of a decoded JSON object that the handlers read: the
      `content` value, if the key is present, and the image prompt. */
  datatype JsonFields = JsonFields(content: Option<JsonValue>, imagePrompt: Option<string>)

  /** `json.loads`: the object's fields, or `None` for a decoding error. */
  type Decoder = string -> Option<JsonFields>

  /** `{"content": raw}`. */
  function Fallback(raw: string): JsonFields {
    JsonFields(Some(JsonText(raw)), None)
  }

  /** `parsed.get("content", raw)`: the decoded value when the key is present,
      the raw text otherwise. */
  function ContentOr(parsed: JsonFields, raw: string): (v: JsonValue)
    ensures parsed.content.None? ==> v == JsonText(raw)
    ensures parsed.content.Some? ==> v == parsed.content.value
  {
    parsed.content.GetOr(JsonText(raw))
  }

  /** The text of the `AttributeError` that `.split()` raises on a value that is
      not a string. */
  function NoSplitError(typeName: string): string {
    "'" + typeName + "' object has no attribute 'split'"
  }

  /** One character of the pattern `json` under case-insensitive matching,
      which also lets the long s (U+017F) stand for `s`. */
  predicate FenceLetter(c: char, lower: char, upper: char) {
    c == lower || c == upper || (lower == 's' && c == '\U{17F}')
  }

  /** The text begins with three backticks and `json` in any case. */
  predicate OpensFence(s: string) {
    && |s| >= 7 && s[..3] == "```"
    && FenceLetter(s[3], 'j', 'J') && FenceLetter(s[4], 's', 'S')
    && FenceLetter(s[5], 'o', 'O') && FenceLetter(s[6], 'n', 'N')
  }

  /** Removing `^```json\s*`: the opening fence and the spaces after it. */
  function DropOpening(s: string): (t: string)
    ensures |t| <= |s| && t == s[|s| - |t|..]
    ensures !OpensFence(s) ==> t == s
    ensures OpensFence(s) ==> t == DropSpaces(s[7..])
  {
    if OpensFence(s) then DropSpaces(s[7..]) else s
  }

  /** The text ends with three backticks. */
  predicate EndsWithFence(s: string) {
    |s| >= 3 && s[|s| - 3..] == "```"
  }

  /** The text ends with three backticks and a line break. */
  predicate EndsWithFenceBreak(s: string) {
    |s| >= 4 && s[|s| - 4..] == "```\n"
  }

  /** Removing `` ```$ ``: three backticks at the very end, or just before a
      final line break, which `$` also matches. */
  function DropClosing(s: string): (t: string)
    ensures |t| <= |s|
    // every character is kept in place, except a final line break moved forward
    ensures forall i :: 0 <= i < |t| ==> t[i] == s[i] || (i == |t| - 1 && t[i] == '\n')
    ensures !EndsWithFence(s) && !EndsWithFenceBreak(s) ==> t == s
  {
    if EndsWithFence(s) then s[..|s| - 3]
    else if EndsWithFenceBreak(s) then
      var t := s[..|s| - 4] + "\n";
      assert forall i :: 0 <= i < |t| - 1 ==> t[i] == s[i];
      t
    else s
  }

  /** The reply with its markdown fences removed. */
  function Unfenced(raw: string): string {
    DropClosing(DropOpening(raw))
  }

  /** `s.find(c)`, with `-1` as `None`. */
  function Find(s: string, c: char): (r: Option<nat>)
    ensures r.None? <==> c !in s
    ensures r.Some? ==> r.value < |s| && s[r.value] == c && c !in s[..r.value]
  {
    if s == [] then None
    else if s[0] == c then Some(0)
    else
      var r := Find(s[1..], c);
      assert s[1..][..(if r.Some? then r.value else 0)] == s[1..(if r.Some? then r.value + 1 else 1)];
      if r.Some? then Some(r.value + 1) else None
  }

  /** `s.rfind(c)`, with `-1` as `None`. */
  function RFind(s: string, c: char): (r: Option<nat>)
    ensures r.None? <==> c !in s
    ensures r.Some? ==> r.value < |s| && s[r.value] == c && c !in s[r.value + 1..]
  {
    if s == [] then None
    else if s[|s| - 1] == c then Some(|s| - 1)
    else
      var r := RFind(s[..|s| - 1], c);
      if r.Some? then Some(r.value) else None
  }

  /** `s[s.find('{'):s.rfind('}') + 1]` when both braces occur, `None` otherwise.
      A last `}` before the first `{` gives the empty slice. */
  function BraceSpan(s: string): Option<string> {
    var start, end := Find(s, '{'), RFind(s, '}');
    if start.Some? && end.Some? then
      Some(if start.value <= end.value then s[start.value..end.value + 1] else "")
    else None
  }

  /** The text handed to the decoder: the brace span of the unfenced reply. */
  function Candidate(raw: string): Option<string> {
    BraceSpan(Unfenced(raw))
  }

  /** `parse_ai_response` / `_parse_ai_response`. The empty candidate always
      fails to decode, as `json.loads("")` raises. */
  function ParseAiResponse(raw: string, decode: Decoder): JsonFields {
    match Candidate(raw)
    case None => Fallback(raw)
    case Some(c) =>
      if c == "" then Fallback(raw)
      else
        match decode(c)
        case None => Fallback(raw)
        case Some(obj) => obj
  }

  // ---------------------------------------------------------------- laws

  /** Fences hold no braces: if the reply lacks either brace so does the
      unfenced text, and the reply itself is the answer. */
  lemma {:induction false} NoBraceFallback(raw: string, decode: Decoder)
    requires '{' !in raw || '}' !in raw
    ensures Candidate(raw).None?
    ensures ParseAiResponse(raw, decode) == Fallback(raw)
  {
    var a := DropOpening(raw);
    assert forall c :: c in a ==> c in raw;
    var s := DropClosing(a);
    if '{' in s {
      var i :| 0 <= i < |s| && s[i] == '{';
      UnfencedBraceFrom(a, i, '{');
    }
    if '}' in s {
      var i :| 0 <= i < |s| && s[i] == '}';
      UnfencedBraceFrom(a, i, '}');
    }
  }

  /** A brace of the text after the closing fence is dropped is a brace of the
      text before it. */
  lemma UnfencedBraceFrom(a: string, i: nat, c: char)
    requires c != '\n' && c != '`'
    requires i < |DropClosing(a)| && DropClosing(a)[i] == c
    ensures c in a
  {
    assert a[i] == c;
  }

  /** Whenever the decoder is asked, it is given text that opens with `{`, closes
      with `}`, and lies between the first `{` and the last `}` of the unfenced
      reply. */
  lemma CandidateShape(raw: string)
    requires Candidate(raw).Some? && Candidate(raw).value != ""
    ensures BracedIn(Candidate(raw).value, Unfenced(raw))
  {
    var s := Unfenced(raw);
    assert Candidate(raw) == BraceSpan(s);
    BraceSpanShape(s);
  }

  /** `c` opens with `{`, closes with `}`, and occurs in `s` with no `{`
      before it and no `}` after it. */
  predicate BracedIn(c: string, s: string) {
    && c != [] && c[0] == '{' && c[|c| - 1] == '}'
    && exists i :: 0 <= i && i + |c| <= |s| && s[i..i + |c|] == c && '{' !in s[..i] && '}' !in s[i + |c|..]
  }

  lemma BraceSpanShape(s: string)
    requires BraceSpan(s).Some? && BraceSpan(s).value != ""
    ensures BracedIn(BraceSpan(s).value, s)
  {
    var c := BraceSpan(s).value;
    var start, end := Find(s, '{').value, RFind(s, '}').value;
    assert start <= end && c == s[start..end + 1];
    assert s[start..start + |c|] == c && '{' !in s[..start] && '}' !in s[start + |c|..];
  }

  /** A JSON object wrapped in a `json` code block is recovered exactly: the
      fences and the line breaks beside them are cut away before decoding. */
  lemma {:induction false} FencedObject(obj: string, decode: Decoder)
    requires |obj| >= 2 && obj[0] == '{' && obj[|obj| - 1] == '}'
    requires decode(obj).Some?
    ensures Candidate("```json\n" + obj + "\n```") == Some(obj)
    ensures ParseAiResponse("```json\n" + obj + "\n```", decode) == decode(obj).value
  {
    var raw := "```json\n" + obj + "\n```";
    UnfencedFenced(obj);
    BraceSpanOfObject(obj);
    assert Candidate(raw) == Some(obj);
  }

  /** The fences and the line break after the opening one are cut away,
      leaving the object and the line break before the closing fence. */
  lemma UnfencedFenced(obj: string)
    requires obj != [] && obj[0] == '{'
    ensures Unfenced("```json\n" + obj + "\n```") == obj + "\n"
  {
    var raw := "```json\n" + obj + "\n```";
    assert OpensFence(raw) by {
      assert raw[..3] == "```" && raw[3] == 'j' && raw[4] == 's' && raw[5] == 'o' && raw[6] == 'n';
    }
    var a := obj + "\n```";
    assert DropOpening(raw) == a by {
      assert raw[7..] == "\n" + a;
      assert ("\n" + a)[1..] == a;
      assert a[0] == '{';
    }
    assert DropClosing(a) == obj + "\n" by {
      assert a[|a| - 3..] == "```";
      assert a[..|a| - 3] == obj + "\n";
    }
  }

  /** An object followed by a line break spans from its own first to its
      own last character. */
  lemma BraceSpanOfObject(obj: string)
    requires |obj| >= 2 && obj[0] == '{' && obj[|obj| - 1] == '}'
    ensures BraceSpan(obj + "\n") == Some(obj)
  {
    var s := obj + "\n";
    assert Find(s, '{') == Some(0) by {
      assert s[0] == '{';
    }
    assert RFind(s, '}') == Some(|obj| - 1) by {
      assert s[..|s| - 1] == obj;
      assert RFind(obj, '}') == Some(|obj| - 1);
    }
    assert s[0..|obj|] == obj;
  }

  // ---------------------------------------------------------------- generation

  /** The chat completion request: the system and the user message. */
  datatype ChatRequest = ChatRequest(system: SystemPrompt, user: string)

  /** The completion, or the text of the exception the client raised. */
  datatype ChatReply = ChatFailed(message: string) | Answered(text: string)

  type Chat = ChatRequest -> ChatReply

  /** The request `generate_content` sends, given the fallback user prompt. */
  function GenerationRequest(contentType: string, topic: Option<string>, platforms: Option<seq<string>>,
                             customPrompt: Option<string>, default: string): ChatRequest {
    ChatRequest(SystemPrompt(PromptFor(contentType), PlatformString(platforms)),
                UserPrompt(topic, customPrompt, default))
  }

  /** The dict `OpenAIService.generate_content` returns. */
  datatype Generation = Generation(
    success: bool,
    error: Option<string>,
    content: JsonValue,
    imagePrompt: string,
    topic: Option<string>,
    contentType: Option<string>)

  /** `OpenAIService.generate_content`: one chat request; the stripped answer is
      parsed, and its fields default to the answer itself and to "". */
  function GenerateContent(contentType: string, topic: Option<string>, platforms: Option<seq<string>>,
                           customPrompt: Option<string>, chat: Chat, decode: Decoder): (g: Generation)
    ensures var reply := chat(GenerationRequest(contentType, topic, platforms, customPrompt, BackendDefaultPrompt));
      && (reply.ChatFailed? ==> g == Generation(false, Some(reply.message), JsonText(""), "", None, None))
      && (reply.Answered? ==>
            var parsed := ParseAiResponse(Strip(reply.text), decode);
            && g.success && g.error.None?
            && g.content == ContentOr(parsed, Strip(reply.text))
            && g.imagePrompt == parsed.imagePrompt.GetOr("")
            && g.topic == topic && g.contentType == Some(contentType))
  {
    var request := GenerationRequest(contentType, topic, platforms, customPrompt, BackendDefaultPrompt);
    match chat(request)
    case ChatFailed(message) => Generation(false, Some(message), JsonText(""), "", None, None)
    case Answered(text) =>
      var raw := Strip(text);
      var parsed := ParseAiResponse(raw, decode);
      Generation(true, None, ContentOr(parsed, raw), parsed.imagePrompt.GetOr(""), topic, Some(contentType))
  }

  /** An answer with no JSON object in it becomes the post itself, stripped. */
  lemma PlainAnswer(contentType: string, topic: Option<string>, platforms: Option<seq<string>>,
                    customPrompt: Option<string>, chat: Chat, decode: Decoder, text: string)
    requires chat(GenerationRequest(contentType, topic, platforms, customPrompt, BackendDefaultPrompt)) == Answered(text)
    requires '{' !in text
    ensures GenerateContent(contentType, topic, platforms, customPrompt, chat, decode).content == JsonText(Strip(text))
    ensures GenerateContent(contentType, topic, platforms, customPrompt, chat, decode).imagePrompt == ""
  {
    var raw := Strip(text);
    assert forall i :: 0 <= i < |raw| ==> raw[i] in text;
    NoBraceFallback(raw, decode);
  }
}
