/** The reply extraction of the itinerary server's POST endpoint
    (3_deploy_langGraph_agent/server.py, `generate_itinerary`): it reads the
    question out of the request, finds the assistant's answer in the graph's
    final state, drops any `<thinking>` sections, and returns a two-entry
    reply. Running the graph is a parameter: its final state is given. */
module ItineraryReply {
  import opened Options
  import opened Text
  import opened Seqs
  import Planner

  const OpenTag := "<thinking>"
  const CloseTag := "</thinking>"

  /** One element of a content list; only a dict whose `"type"` is `"text"`
      matters, with its `"text"` entry (`""` when absent). */
  datatype Part = TextPart(text: string) | OtherPart

  /** A message content or itinerary value: a string, a list of parts, or any
      other object. Non-strings carry their `str()` and, for other objects,
      their Python truth value. */
  datatype Content =
    | Str(s: string)
    | PartList(parts: seq<Part>, shown: string)
    | Other(truthy: bool, shown: string)

  /** A message in the final state: an object with an optional `type`
      attribute and a class name, or a dict with an optional `"type"` key
      (a missing `"content"` key is `Str("")`). */
  datatype Msg =
    | ObjMsg(typeAttr: Option<string>, className: string, content: Content)
    | DictMsg(typeKey: Option<string>, content: Content)

  /** The final graph state: its `"messages"` and `"itinerary"` keys. */
  datatype GraphResult = GraphResult(messages: Option<seq<Msg>>, itinerary: Option<Content>)

  datatype ReplyEntry = ReplyEntry(role: string, content: string)

  /** The question: `user_message`, or `question` when that is empty or
      missing and the `question` key exists, else the empty string. */
  function UserMessageOf(request: map<string, string>): (r: string)
    ensures "user_message" in request && request["user_message"] != "" ==> r == request["user_message"]
    ensures ("user_message" !in request || request["user_message"] == "") && "question" in request ==>
              r == request["question"]
    ensures ("user_message" !in request || request["user_message"] == "") && "question" !in request ==>
              r == ""
  {
    var m := if "user_message" in request then request["user_message"] else "";
    if m == "" && "question" in request then request["question"] else m
  }

  predicate Truthy(c: Content) {
    match c
    case Str(s) => s != ""
    case PartList(parts, _) => parts != []
    case Other(t, _) => t
  }

  /** `str(c)` */
  function AsText(c: Content): string {
    match c
    case Str(s) => s
    case PartList(_, shown) => shown
    case Other(_, shown) => shown
  }

  /** The three ways the loop recognises an assistant message. */
  predicate IsAiMsg(m: Msg) {
    match m
    case ObjMsg(t, cls, _) => t == Some("ai") || cls == "AIMessage"
    case DictMsg(t, _) => t == Some("ai")
  }

  /** The content of the last assistant message, scanning from the end. */
  function LastAiContent(msgs: seq<Msg>): (r: Option<Content>)
    ensures r.None? <==> forall k :: 0 <= k < |msgs| ==> !IsAiMsg(msgs[k])
    ensures r.Some? ==> exists k :: LastAt(msgs, IsAiMsg, k) && msgs[k].content == r.value
  {
    match LastIndex(msgs, IsAiMsg)
    case Some(k) => Some(msgs[k].content)
    case None => None
  }

  /** `ai_message_content` after the search and the itinerary fallback. */
  function AnswerContent(result: GraphResult): (r: Content)
    ensures result.messages.Some? && LastAiContent(result.messages.value).Some?
            && Truthy(LastAiContent(result.messages.value).value)
            ==> r == LastAiContent(result.messages.value).value
    ensures (result.messages.None? || LastAiContent(result.messages.value).None?) && result.itinerary.Some?
            ==> r == Str(AsText(result.itinerary.value))
    ensures result.messages.Some? && LastAiContent(result.messages.value).Some?
            && !Truthy(LastAiContent(result.messages.value).value) && result.itinerary.Some?
            ==> r == Str(AsText(result.itinerary.value))
    ensures result.itinerary.None? ==>
              r == (if result.messages.Some? && LastAiContent(result.messages.value).Some?
                    then LastAiContent(result.messages.value).value else Str(""))
  {
    var found := if result.messages.Some? && |result.messages.value| > 0
                 then LastAiContent(result.messages.value).GetOr(Str(""))
                 else Str("");
    if !Truthy(found) && result.itinerary.Some? then Str(AsText(result.itinerary.value)) else found
  }

  predicate IsTextPart(p: Part) {
    p.TextPart?
  }

  /** `text.split("<thinking>")[-1].split("</thinking>")[-1].strip()` */
  function CutThinking(text: string): (r: string)
    ensures IsStripped(r)
    ensures !Contains(r, OpenTag) && !Contains(r, CloseTag)
  {
    var afterOpen := Last(Split(text, OpenTag));
    var afterClose := Last(Split(afterOpen, CloseTag));
    SplitLastFree(text, OpenTag);
    SplitLastFree(afterOpen, CloseTag);
    SplitLastSuffix(afterOpen, CloseTag);
    NotContainsInfix(afterOpen, OpenTag, |afterOpen| - |afterClose|, |afterOpen|);
    assert afterClose == afterOpen[|afterOpen| - |afterClose|..|afterOpen|];
    StripKeepsFree(afterClose, OpenTag);
    StripKeepsFree(afterClose, CloseTag);
    Strip(afterClose)
  }

  /** `p` is the last piece of `s` split on `sep`: a suffix of `s` free of
      `sep`, preceded by `sep` when `sep` occurs in `s` at all, and all of
      `s` when it does not. */
  predicate LastPiece(s: string, sep: string, p: string) {
    && |p| <= |s| && p == s[|s| - |p|..] && !Contains(p, sep)
    && (Contains(s, sep) ==> EndsWith(s[..|s| - |p|], sep))
    && (!Contains(s, sep) ==> p == s)
  }

  /** What `CutThinking` keeps: the part of `text` after its last
      `<thinking>`, then the part of that after its last `</thinking>`,
      stripped. */
  lemma CutThinkingCases(text: string)
    ensures LastPiece(text, OpenTag, Last(Split(text, OpenTag)))
    ensures var a := Last(Split(text, OpenTag));
            LastPiece(a, CloseTag, Last(Split(a, CloseTag)))
            && CutThinking(text) == Strip(Last(Split(a, CloseTag)))
  {
    var a := Last(Split(text, OpenTag));
    LastPieceFacts(text, OpenTag);
    LastPieceFacts(a, CloseTag);
  }

  /** Python's `s.split(sep)[-1]` is the last piece. */
  lemma LastPieceFacts(s: string, sep: string)
    requires |sep| > 0
    ensures LastPiece(s, sep, Last(Split(s, sep)))
  {
    SplitLastSuffix(s, sep);
    SplitLastFree(s, sep);
    SplitPieces(s, sep);
    if Contains(s, sep) {
      SplitLastAfterSep(s, sep);
    }
  }

  /** The answer as a string: the cut text of the last text part of a list,
      otherwise `str()` of the value. */
  function ContentText(c: Content): string {
    match c
    case Str(s) => s
    case PartList(parts, shown) =>
      (match LastIndex(parts, IsTextPart)
       case Some(k) => CutThinking(parts[k].text)
       case None => shown)
    case Other(_, shown) => shown
  }

  /** The text part a list contributes is the last one. */
  lemma LastTextPartWins(parts: seq<Part>, shown: string)
    ensures (forall k :: 0 <= k < |parts| ==> !parts[k].TextPart?) ==> ContentText(PartList(parts, shown)) == shown
    ensures forall k :: LastAt(parts, IsTextPart, k) ==> ContentText(PartList(parts, shown)) == CutThinking(parts[k].text)
  {
    forall k | LastAt(parts, IsTextPart, k)
      ensures ContentText(PartList(parts, shown)) == CutThinking(parts[k].text)
    {
      var j := LastIndex(parts, IsTextPart).value;
      assert LastAt(parts, IsTextPart, j);
    }
  }

  /** Removal of thinking sections from a string answer: when it contains
      `<thinking>` and the split on `</thinking>` has more than one piece,
      the stripped last piece. */
  function DropThinking(s: string): string {
    if Contains(s, OpenTag) then
      var parts := Split(s, CloseTag);
      if |parts| > 1 then Strip(Last(parts)) else s
    else s
  }

  /** What `DropThinking` does, in terms of the tags present. */
  lemma DropThinkingCases(s: string)
    ensures !Contains(s, OpenTag) ==> DropThinking(s) == s
    ensures !Contains(s, CloseTag) ==> DropThinking(s) == s
    ensures Contains(s, OpenTag) && Contains(s, CloseTag) ==>
              && DropThinking(s) == Strip(Last(Split(s, CloseTag)))
              && !Contains(DropThinking(s), CloseTag)
              && |Last(Split(s, CloseTag))| <= |s|
              && EndsWith(s[..|s| - |Last(Split(s, CloseTag))|], CloseTag)
  {
    SplitPieces(s, CloseTag);
    if Contains(s, CloseTag) {
      SplitLastAfterSep(s, CloseTag);
      StrippedLastFree(s);
    }
  }

  lemma StrippedLastFree(s: string)
    ensures !Contains(Strip(Last(Split(s, CloseTag))), CloseTag)
  {
    SplitLastFree(s, CloseTag);
    StripKeepsFree(Last(Split(s, CloseTag)), CloseTag);
  }

  /** Dropping the thinking sections twice is the same as once. */
  lemma {:induction false} DropThinkingIdempotent(s: string)
    ensures DropThinking(DropThinking(s)) == DropThinking(s)
  {
    DropThinkingCases(s);
    var d := DropThinking(s);
    if d != s {
      DropThinkingCases(d);
    }
  }

  /** `generate_itinerary`: the user entry, then the assistant entry. */
  function GenerateItinerary(request: map<string, string>, result: GraphResult): (reply: seq<ReplyEntry>)
    ensures |reply| == 2
    ensures reply[0] == ReplyEntry("user", UserMessageOf(request))
    ensures reply[1].role == "ai" && IsStripped(reply[1].content)
  {
    var answer := DropThinking(ContentText(AnswerContent(result)));
    [ReplyEntry("user", UserMessageOf(request)), ReplyEntry("ai", Strip(answer))]
  }

  /** When the answer's text contains both tags, the reply holds no closing
      tag any more. */
  lemma ReplyDropsThinking(request: map<string, string>, result: GraphResult)
    ensures var t := ContentText(AnswerContent(result));
            Contains(t, OpenTag) && Contains(t, CloseTag) ==>
              !Contains(GenerateItinerary(request, result)[1].content, CloseTag)
  {
    var t := ContentText(AnswerContent(result));
    if Contains(t, OpenTag) && Contains(t, CloseTag) {
      DropThinkingCases(t);
      var d := DropThinking(t);
      StripOfStripped(d);
    }
  }

  // ---------------------------------------------------------------------------
  // The reply to what the planner graph produces

  function AsMsg(m: Planner.Message): Msg {
    match m
    case Human(c) => ObjMsg(Some("human"), "HumanMessage", Str(c))
    case Ai(c) => ObjMsg(Some("ai"), "AIMessage", Str(c))
  }

  /** The graph's final state as the endpoint sees it. */
  function AsResult(s: Planner.PlannerState): GraphResult {
    GraphResult(
      if s.messages.Some? then Some(seq(|s.messages.value|, i requires 0 <= i < |s.messages.value| => AsMsg(s.messages.value[i])))
      else None,
      if s.itinerary.Some? then Some(Str(s.itinerary.value)) else None)
  }

  /** `input_data`: the graph starts from the question alone. */
  function InputOf(request: map<string, string>): Planner.PlannerState {
    Planner.PlannerState(None, None, None, Some(UserMessageOf(request)), None, None)
  }

  /** Whatever the agent does, the graph run completes, and the reply is the
      question followed by the itinerary the node stored, thinking sections
      dropped and stripped. */
  lemma ReplyToPlannerRun(request: map<string, string>, agent: Planner.AgentOutcome)
    ensures var r := Planner.CreateItinerary(Planner.InputInterest(InputOf(request)), agent, Planner.ServerErrorPrefix);
            && r.Ok?
            && r.state.messages == Some([Planner.Human(UserMessageOf(request)), Planner.Ai(r.state.itinerary.value)])
            && GenerateItinerary(request, AsResult(r.state))
               == [ReplyEntry("user", UserMessageOf(request)),
                   ReplyEntry("ai", Strip(DropThinking(r.state.itinerary.value)))]
  {
    var r := Planner.CreateItinerary(Planner.InputInterest(InputOf(request)), agent, Planner.ServerErrorPrefix);
    var it := r.state.itinerary.value;
    assert Planner.InputInterest(InputOf(request)).messages == Some([]);
    assert [] + [Planner.Human(UserMessageOf(request)), Planner.Ai(it)] == [Planner.Human(UserMessageOf(request)), Planner.Ai(it)];
    var msgs := AsResult(r.state).messages.value;
    var n := |msgs|;
    assert msgs[n - 1] == ObjMsg(Some("ai"), "AIMessage", Str(it));
    assert LastAt(msgs, IsAiMsg, n - 1);
    assert LastAiContent(msgs) == Some(Str(it)) by {
      var k := LastIndex(msgs, IsAiMsg).value;
      assert LastAt(msgs, IsAiMsg, k);
    }
    assert ContentText(AnswerContent(AsResult(r.state))) == it;
  }
}
