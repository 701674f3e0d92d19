/** The pure parts of the Streamlit chat front end (chatbot.py): which
    command-line arguments reach argparse, the final newline step of message
    formatting, how the assistant reply is picked out of the server's answer,
    and the "Start New Conversation" reset. */
module Chatbot {
  import opened Options
  import opened Text
  import opened Seqs

  const DefaultApiUrl := "http://localhost:8000/generate"
  const UrlFlag := "--api-server-url"

  predicate IsDoubleDash(a: string) {
    a == "--"
  }

  // ---------------------------------------------------------------------------
  // get_args

  /** What entry `i` of `argv` (i >= 1) contributes when no "--" is present:
      a `--api-server-url=V` token alone, a bare `--api-server-url` together
      with the entry after it, and nothing for a trailing bare flag or any
      other entry. */
  function Picked(argv: seq<string>, i: nat): seq<string>
    requires i < |argv|
  {
    if !StartsWith(argv[i], UrlFlag) then []
    else if Contains(argv[i], "=") then [argv[i]]
    else if i < |argv| - 1 then [argv[i], argv[i + 1]]
    else []
  }

  function FlagArgs(argv: seq<string>, i: nat): seq<string>
    decreases |argv| - i
  {
    if i >= |argv| then [] else Picked(argv, i) + FlagArgs(argv, i + 1)
  }

  /** The list `get_args` hands to `parser.parse_args`. */
  function KeptArgs(argv: seq<string>): (r: seq<string>)
    ensures "--" in argv ==>
              exists k :: FirstAt(argv, IsDoubleDash, k) && r == argv[k + 1..]
    ensures "--" !in argv && |argv| <= 1 ==> r == []
  {
    match FirstIndex(argv, IsDoubleDash)
    case Some(k) => argv[k + 1..]
    case None => if |argv| > 1 then FlagArgs(argv, 1) else []
  }

  /** A list made of a series of `--api-server-url...=V` tokens and
      `--api-server-url... V` pairs. */
  ghost predicate WellGrouped(args: seq<string>)
    decreases |args|
  {
    |args| == 0 ||
    (StartsWith(args[0], UrlFlag) &&
     if Contains(args[0], "=") then WellGrouped(args[1..])
     else |args| >= 2 && WellGrouped(args[2..]))
  }

  lemma {:induction false} WellGroupedConcat(a: seq<string>, b: seq<string>)
    requires WellGrouped(a) && WellGrouped(b)
    ensures WellGrouped(a + b)
    decreases |a|
  {
    if |a| == 0 {
      assert a + b == b;
    } else {
      assert (a + b)[0] == a[0];
      if Contains(a[0], "=") {
        WellGroupedConcat(a[1..], b);
        assert (a + b)[1..] == a[1..] + b;
        assert WellGrouped((a + b)[1..]);
      } else {
        assert |a| >= 2 && WellGrouped(a[2..]);
        WellGroupedConcat(a[2..], b);
        assert (a + b)[2..] == a[2..] + b;
        assert WellGrouped((a + b)[2..]);
      }
    }
  }

  lemma {:induction false} FlagArgsWellGrouped(argv: seq<string>, i: nat)
    ensures WellGrouped(FlagArgs(argv, i))
    decreases |argv| - i
  {
    if i < |argv| {
      FlagArgsWellGrouped(argv, i + 1);
      var p := Picked(argv, i);
      assert WellGrouped(p) by {
        if |p| == 2 {
          assert p[2..] == [];
        } else if |p| == 1 {
          assert p[1..] == [];
        }
      }
      WellGroupedConcat(p, FlagArgs(argv, i + 1));
    }
  }

  /** Every argument kept from `argv[i..]` is an entry of `argv[i..]`. */
  lemma {:induction false} FlagArgsFromArgv(argv: seq<string>, i: nat)
    ensures forall a :: a in FlagArgs(argv, i) ==> a in argv[i..]
    decreases |argv| - i
  {
    if i < |argv| {
      FlagArgsFromArgv(argv, i + 1);
      assert forall a :: a in argv[i + 1..] ==> a in argv[i..];
    }
  }

  /** Without "--", the kept arguments come from `argv[1:]`, in the groups
      argparse expects, and there are none unless some entry of `argv[1:]`
      starts with the flag. Conversely, every `--api-server-url...=V` entry
      of `argv[1:]` is kept, and every bare flag entry that has an entry
      after it is kept together with that entry. */
  lemma KeptArgsWithoutDoubleDash(argv: seq<string>)
    requires "--" !in argv
    ensures WellGrouped(KeptArgs(argv))
    ensures forall a :: a in KeptArgs(argv) ==> a in argv[1..]
    ensures (forall i :: 1 <= i < |argv| ==> !StartsWith(argv[i], UrlFlag)) ==> KeptArgs(argv) == []
    ensures forall i :: 1 <= i < |argv| && StartsWith(argv[i], UrlFlag) && Contains(argv[i], "=") ==>
              argv[i] in KeptArgs(argv)
    ensures forall i :: 1 <= i < |argv| - 1 && StartsWith(argv[i], UrlFlag) && !Contains(argv[i], "=") ==>
              exists j :: PairAt(KeptArgs(argv), j, argv, i)
  {
    if |argv| > 1 {
      FlagArgsWellGrouped(argv, 1);
      FlagArgsFromArgv(argv, 1);
      if forall i :: 1 <= i < |argv| ==> !StartsWith(argv[i], UrlFlag) {
        NoFlagNothingKept(argv, 1);
      }
      var kept := FlagArgs(argv, 1);
      assert KeptArgs(argv) == kept;
      forall i | 1 <= i < |argv| && StartsWith(argv[i], UrlFlag)
        ensures Contains(argv[i], "=") ==> argv[i] in kept
        ensures i < |argv| - 1 && !Contains(argv[i], "=") ==> exists j :: PairAt(kept, j, argv, i)
      {
        var j := FlagKept(argv, i);
      }
    }
  }

  /** Entries `i` and `i + 1` of `argv` sit, in that order, at positions
      `j` and `j + 1` of `xs`. */
  predicate PairAt(xs: seq<string>, j: int, argv: seq<string>, i: nat) {
    0 <= j < |xs| - 1 && i < |argv| - 1 && xs[j] == argv[i] && xs[j + 1] == argv[i + 1]
  }

  /** Where a flag entry of `argv[1:]` lands among the kept arguments: a
      `=` form at `j`, a bare flag with an entry after it at `j` followed by
      that entry. */
  lemma FlagKept(argv: seq<string>, i: nat) returns (j: nat)
    requires 1 <= i < |argv| && StartsWith(argv[i], UrlFlag)
    ensures Contains(argv[i], "=") ==> j < |FlagArgs(argv, 1)| && FlagArgs(argv, 1)[j] == argv[i]
    ensures i < |argv| - 1 && !Contains(argv[i], "=") ==> PairAt(FlagArgs(argv, 1), j, argv, i)
  {
    var kept := FlagArgs(argv, 1);
    var p := Picked(argv, i);
    j := PickedWithin(argv, 1, i);
    assert kept[j..j + |p|] == p;
    if Contains(argv[i], "=") {
      assert p == [argv[i]];
      assert kept[j] == p[0];
    } else if i < |argv| - 1 {
      assert p == [argv[i], argv[i + 1]];
      assert kept[j] == p[0] && kept[j + 1] == p[1];
    }
  }

  /** The contribution of entry `i` appears, as one block, in what is kept
      from `argv[start..]`; `j` is where the block begins. */
  lemma {:induction false} PickedWithin(argv: seq<string>, start: nat, i: nat) returns (j: nat)
    requires start <= i < |argv|
    ensures j + |Picked(argv, i)| <= |FlagArgs(argv, start)|
    ensures FlagArgs(argv, start)[j..j + |Picked(argv, i)|] == Picked(argv, i)
    decreases i - start
  {
    var here := Picked(argv, start);
    var rest := FlagArgs(argv, start + 1);
    assert FlagArgs(argv, start) == here + rest;
    if i == start {
      j := 0;
      SliceOfConcat(here, rest, -|here|, |here|);
    } else {
      var block := Picked(argv, i);
      var k := PickedWithin(argv, start + 1, i);
      j := |here| + k;
      SliceOfConcat(here, rest, k, |block|);
    }
  }

  /** A slice of `x + y` that starts at `|x| + k` and has length `m`: inside
      `y` when `k >= 0`, and exactly `x` when it is all of `x`. */
  lemma SliceOfConcat(x: seq<string>, y: seq<string>, k: int, m: nat)
    requires (0 <= k && k + m <= |y|) || (k == -|x| && m == |x|)
    ensures 0 <= k ==> (x + y)[|x| + k..|x| + k + m] == y[k..k + m]
    ensures k == -|x| && m == |x| ==> (x + y)[..m] == x
  {
  }

  lemma {:induction false} NoFlagNothingKept(argv: seq<string>, i: nat)
    requires forall j :: i <= j < |argv| ==> !StartsWith(argv[j], UrlFlag)
    ensures FlagArgs(argv, i) == []
    decreases |argv| - i
  {
    if i < |argv| {
      NoFlagNothingKept(argv, i + 1);
    }
  }

  /** How `parser.parse_args(args_list)` ends for a non-empty list. argparse
      reports a usage error by raising SystemExit, which `except Exception`
      does not catch, so that outcome ends the app instead of falling back. */
  datatype ParseOutcome = Parsed(url: string) | ParseRaised | ParseExited

  /** API_URL, or None when argparse terminates the app. */
  function ApiServerUrl(argv: seq<string>, parse: ParseOutcome): (r: Option<string>)
    ensures KeptArgs(argv) == [] ==> r == Some(DefaultApiUrl)
    ensures r.None? <==> KeptArgs(argv) != [] && parse.ParseExited?
    ensures parse.ParseRaised? ==> r == Some(DefaultApiUrl)
    ensures KeptArgs(argv) != [] && parse.Parsed? ==> r == Some(parse.url)
  {
    if KeptArgs(argv) == [] then Some(DefaultApiUrl)
    else match parse
      case Parsed(u) => Some(u)
      case ParseRaised => Some(DefaultApiUrl)
      case ParseExited => None
  }

  /** Without "--" and without any entry of `argv[1:]` that starts with the
      flag, the app talks to the default URL, however argparse would have
      read a list. */
  lemma NoFlagDefaultUrl(argv: seq<string>, parse: ParseOutcome)
    requires "--" !in argv
    requires forall i :: 1 <= i < |argv| ==> !StartsWith(argv[i], UrlFlag)
    ensures ApiServerUrl(argv, parse) == Some(DefaultApiUrl)
  {
    KeptArgsWithoutDoubleDash(argv);
  }

  // ---------------------------------------------------------------------------
  // format_message, final step

  /** Each newline replaced by `<br>`, every other character kept. */
  function NewlinesToBreaks(s: string): (r: string)
    ensures '\n' !in r
  {
    if |s| == 0 then ""
    else (if s[0] == '\n' then "<br>" else [s[0]]) + NewlinesToBreaks(s[1..])
  }

  lemma {:induction false} NewlinesToBreaksConcat(a: string, b: string)
    ensures NewlinesToBreaks(a + b) == NewlinesToBreaks(a) + NewlinesToBreaks(b)
    decreases |a|
  {
    if |a| == 0 {
      assert a + b == b;
    } else {
      var h := if a[0] == '\n' then "<br>" else [a[0]];
      assert (a + b)[0] == a[0];
      assert (a + b)[1..] == a[1..] + b;
      assert NewlinesToBreaks(a + b) == h + NewlinesToBreaks(a[1..] + b);
      NewlinesToBreaksConcat(a[1..], b);
      assert NewlinesToBreaks(a) == h + NewlinesToBreaks(a[1..]);
      assert h + (NewlinesToBreaks(a[1..]) + NewlinesToBreaks(b))
          == (h + NewlinesToBreaks(a[1..])) + NewlinesToBreaks(b);
    }
  }

  lemma {:induction false} NoNewlineUnchanged(s: string)
    requires '\n' !in s
    ensures NewlinesToBreaks(s) == s
    decreases |s|
  {
    if |s| > 0 {
      NoNewlineUnchanged(s[1..]);
      assert s == [s[0]] + s[1..];
    }
  }

  /** `s.replace('\n', '<br>')` is `NewlinesToBreaks(s)`. */
  lemma {:induction false} ReplaceNewline(s: string)
    ensures Replace(s, "\n", "<br>") == NewlinesToBreaks(s)
    decreases |s|
  {
    if |s| >= 1 {
      ReplaceNewline(s[1..]);
      var rest := Split(s[1..], "\n");
      if s[..1] == "\n" {
        assert Split(s, "\n") == [""] + rest;
        assert ([""] + rest)[1..] == rest;
      } else {
        assert Split(s, "\n") == [[s[0]] + rest[0]] + rest[1..];
        JoinConsHead([s[0]], rest, "<br>");
      }
    }
  }

  /** Rendering newlines as breaks cannot tell a "\n\n" separator from a
      "<br><br>" one. */
  lemma {:induction false} BreaksOfJoin(parts: seq<string>)
    requires |parts| >= 1
    ensures NewlinesToBreaks(Join(parts, "<br><br>")) == NewlinesToBreaks(Join(parts, "\n\n"))
    decreases |parts|
  {
    if |parts| > 1 {
      BreaksOfJoin(parts[1..]);
      BreaksOfSeparator(parts[0], Join(parts[1..], "<br><br>"), Join(parts[1..], "\n\n"));
    }
  }

  lemma BreaksOfSeparator(p: string, a: string, b: string)
    requires NewlinesToBreaks(a) == NewlinesToBreaks(b)
    ensures NewlinesToBreaks(p + "<br><br>" + a) == NewlinesToBreaks(p + "\n\n" + b)
  {
    DoubleBreak();
    BreaksOfParts(p, "<br><br>", a, "\n\n", b);
  }

  lemma DoubleBreak()
    ensures NewlinesToBreaks("<br><br>") == NewlinesToBreaks("\n\n")
  {
    var br := "<br>";
    OneBreak();
    assert "\n\n" == "\n" + "\n";
    NewlinesToBreaksConcat("\n", "\n");
    assert "<br><br>" == br + br;
    NewlinesToBreaksConcat(br, br);
  }

  lemma OneBreak()
    ensures NewlinesToBreaks("\n") == "<br>"
    ensures NewlinesToBreaks("<br>") == "<br>"
  {
    assert "\n"[0] == '\n' && "\n"[1..] == "";
    NoNewlineUnchanged("<br>");
  }

  /** Texts that render alike, put together, render alike. */
  lemma BreaksOfParts(p: string, sa: string, a: string, sb: string, b: string)
    requires NewlinesToBreaks(sa) == NewlinesToBreaks(sb)
    requires NewlinesToBreaks(a) == NewlinesToBreaks(b)
    ensures NewlinesToBreaks(p + sa + a) == NewlinesToBreaks(p + sb + b)
  {
    NewlinesToBreaksConcat(p, sa);
    NewlinesToBreaksConcat(p + sa, a);
    NewlinesToBreaksConcat(p, sb);
    NewlinesToBreaksConcat(p + sb, b);
  }

  /** The last two steps of `format_message`: double newlines first, then the
      remaining single ones. The result holds no newline and equals replacing
      every newline by `<br>` on its own. */
  function FormatBreaks(content: string): (r: string)
    ensures '\n' !in r
    ensures r == NewlinesToBreaks(content)
  {
    var once := Replace(content, "\n\n", "<br><br>");
    ReplaceNewline(once);
    BreaksOfJoin(Split(content, "\n\n"));
    JoinSplit(content, "\n\n");
    Replace(once, "\n", "<br>")
  }

  // ---------------------------------------------------------------------------
  // stream_response

  /** One entry of the server's `result` list. */
  datatype Entry = Entry(role: string, content: string)

  predicate IsAiEntry(e: Entry) {
    e.role == "ai"
  }

  /** `[msg for msg in outputs if msg["role"] == "ai"]` */
  function AiEntries(outputs: seq<Entry>): (r: seq<Entry>)
    ensures forall e :: e in r ==> IsAiEntry(e) && e in outputs
    ensures |r| == 0 <==> forall k :: 0 <= k < |outputs| ==> !IsAiEntry(outputs[k])
  {
    if |outputs| == 0 then []
    else
      var front := AiEntries(outputs[..|outputs| - 1]);
      var e := outputs[|outputs| - 1];
      assert forall x :: x in outputs[..|outputs| - 1] ==> x in outputs;
      if IsAiEntry(e) then front + [e] else front
  }

  /** The reply shown: the content of the last "ai" entry, if any. */
  function LastAiReply(outputs: seq<Entry>): Option<string> {
    var ai := AiEntries(outputs);
    if |ai| > 0 then Some(ai[|ai| - 1].content) else None
  }

  /** Taking the last element of the filtered list is the same as scanning
      the entries from the end for the first "ai" one. */
  lemma {:induction false} LastAiReplyIsLastAiEntry(outputs: seq<Entry>)
    ensures LastAiReply(outputs).None? <==> forall k :: 0 <= k < |outputs| ==> !IsAiEntry(outputs[k])
    ensures LastAiReply(outputs).Some? ==>
              exists k :: LastAt(outputs, IsAiEntry, k) && outputs[k].content == LastAiReply(outputs).value
    decreases |outputs|
  {
    if |outputs| > 0 {
      var n := |outputs| - 1;
      var front := outputs[..n];
      AiEntriesSnoc(outputs);
      if IsAiEntry(outputs[n]) {
        assert LastAiReply(outputs) == Some(outputs[n].content);
        assert LastAt(outputs, IsAiEntry, n);
      } else {
        assert LastAiReply(outputs) == LastAiReply(front);
        LastAiReplyIsLastAiEntry(front);
        NoAiExtend(outputs, front);
        if LastAiReply(front).Some? {
          var k :| LastAt(front, IsAiEntry, k) && front[k].content == LastAiReply(front).value;
          LastAtExtend(outputs, k);
        }
      }
    }
  }

  lemma AiEntriesSnoc(outputs: seq<Entry>)
    requires |outputs| > 0
    ensures var n := |outputs| - 1;
            AiEntries(outputs) == AiEntries(outputs[..n]) + (if IsAiEntry(outputs[n]) then [outputs[n]] else [])
  {
  }

  lemma NoAiExtend(outputs: seq<Entry>, front: seq<Entry>)
    requires |outputs| > 0 && !IsAiEntry(outputs[|outputs| - 1])
    requires front == outputs[..|outputs| - 1]
    ensures (forall k :: 0 <= k < |outputs| ==> !IsAiEntry(outputs[k])) <==>
            (forall k :: 0 <= k < |front| ==> !IsAiEntry(front[k]))
  {
    assert forall k :: 0 <= k < |front| ==> front[k] == outputs[k];
  }

  lemma LastAtExtend(outputs: seq<Entry>, k: int)
    requires |outputs| > 0 && !IsAiEntry(outputs[|outputs| - 1])
    requires LastAt(outputs[..|outputs| - 1], IsAiEntry, k)
    ensures LastAt(outputs, IsAiEntry, k)
  {
    var front := outputs[..|outputs| - 1];
    forall j | k < j < |outputs|
      ensures !IsAiEntry(outputs[j])
    {
      if j < |outputs| - 1 {
        assert outputs[j] == front[j];
      }
    }
  }

  datatype ChatEntry = ChatEntry(role: string, content: string)

  /** The Streamlit session state. `threadId` is None while the key is unset. */
  datatype Session = Session(
    messages: seq<ChatEntry>,
    threadId: Option<int>,
    pendingQuestion: Option<string>,
    awaiting: bool)

  /** What the POST to the server produced. */
  datatype HttpReply =
    | HttpReply(status: nat, outputs: Option<seq<Entry>>, text: string)
    | RequestRaised(error: string)

  /** What the placeholder shows after the request. */
  datatype Shown = Reply(content: string) | Notice(text: string)

  const NoResponseNotice := "No response from the assistant."

  /** `stream_response(question)` without the rendering: the question is
      stored, then the reply when there is one, and the session is no longer
      awaiting a response. */
  function StreamResponse(s: Session, question: string, reply: HttpReply): (r: (Session, Shown))
    ensures r.0.threadId == s.threadId && r.0.pendingQuestion == s.pendingQuestion && !r.0.awaiting
    ensures |r.0.messages| > |s.messages|
    ensures r.0.messages[..|s.messages| + 1] == s.messages + [ChatEntry("user", question)]
    ensures r.1.Reply? <==> reply.HttpReply? && reply.status == 200
                            && LastAiReply(reply.outputs.GetOr([])).Some?
    ensures r.1.Reply? ==> r.1.content == LastAiReply(reply.outputs.GetOr([])).value
    ensures r.1.Reply? ==> r.0.messages == s.messages + [ChatEntry("user", question), ChatEntry("assistant", r.1.content)]
    ensures reply.HttpReply? && reply.status == 200 && LastAiReply(reply.outputs.GetOr([])).None? ==>
              r.1 == Notice(NoResponseNotice)
    ensures r.1.Notice? ==> r.0.messages == s.messages + [ChatEntry("user", question)]
  {
    var asked := s.messages + [ChatEntry("user", question)];
    match reply
    case RequestRaised(e) =>
      (s.(messages := asked, awaiting := false), Notice("Error: " + e))
    case HttpReply(status, outputs, text) =>
      if status != 200 then
        (s.(messages := asked, awaiting := false), Notice("Error: " + NatToDecimal(status) + " - " + text))
      else match LastAiReply(outputs.GetOr([]))
        case Some(c) =>
          (s.(messages := asked + [ChatEntry("assistant", c)], awaiting := false), Reply(c))
        case None =>
          (s.(messages := asked, awaiting := false), Notice(NoResponseNotice))
  }

  /** The "Start New Conversation" handler. */
  function StartNewConversation(s: Session): (r: Session)
    ensures r.messages == []
    ensures r.threadId.Some? && r.threadId.value == s.threadId.GetOr(0) + 1
    ensures r.pendingQuestion == s.pendingQuestion && r.awaiting == s.awaiting
  {
    s.(messages := [], threadId := Some(s.threadId.GetOr(0) + 1))
  }

  /** The reset button is offered only while no response is awaited. */
  function ResetButton(s: Session, clicked: bool): (r: Session)
    ensures s.awaiting || !clicked ==> r == s
    ensures !s.awaiting && clicked ==> r == StartNewConversation(s)
  {
    if !s.awaiting && clicked then StartNewConversation(s) else s
  }

  function ResetTimes(s: Session, n: nat): Session {
    if n == 0 then s else StartNewConversation(ResetTimes(s, n - 1))
  }

  /** After `n` resets the thread id has advanced by exactly `n`, so no two
      conversations of a session share a thread id. */
  lemma {:induction false} ResetsAdvanceThread(s: Session, n: nat)
    requires n >= 1
    ensures ResetTimes(s, n).threadId == Some(s.threadId.GetOr(0) + n)
    ensures ResetTimes(s, n).messages == []
  {
    if n > 1 {
      ResetsAdvanceThread(s, n - 1);
    }
  }
}
