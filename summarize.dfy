/** The prompt the server's `/api/summarize` endpoint builds from a chat history before it
    calls the text-completion service. */
module Summarize {
  import opened Base
  import opened JsText

  const Header: string := "Summarize the following chat conversation into key points:\n\n"

  /** The endpoint's answer before any external call: a 400 refusal, or the prompt to send on. */
  datatype Outcome = Refused(status: nat, error: string) | Prompt(text: string)

  /** One transcript line: the first five characters of the sender id, a colon, the message. */
  function Line(m: ChatMessage): string {
    Head(m.senderId, 5) + ": " + m.message
  }

  function Lines(h: seq<ChatMessage>): (r: seq<string>)
    ensures |r| == |h|
    ensures forall i :: 0 <= i < |h| ==> r[i] == Line(h[i])
  {
    if h == [] then [] else [Line(h[0])] + Lines(h[1..])
  }

  /** `xs.join('\n')` */
  function Join(xs: seq<string>): string {
    if xs == [] then "" else if |xs| == 1 then xs[0] else xs[0] + "\n" + Join(xs[1..])
  }

  /** `s.split('\n')`: the pieces between newlines, always at least one. */
  function SplitLines(s: string): (r: seq<string>)
    ensures |r| >= 1
  {
    if s == "" then [""]
    else
      var rest := SplitLines(s[1..]);
      if s[0] == '\n' then [""] + rest else [[s[0]] + rest[0]] + rest[1..]
  }

  /** The handler's guard and prompt: a missing or empty history is refused with 400, anything
      else becomes the fixed header followed by one line per message. */
  function BuildPrompt(chatHistory: Option<seq<ChatMessage>>): (r: Outcome)
    ensures r.Refused? <==> chatHistory.None? || chatHistory.value == []
    ensures r.Refused? ==> r.status == 400
    ensures r.Prompt? ==> StartsWith(r.text, Header)
  {
    if chatHistory.None? || |chatHistory.value| == 0 then Refused(400, "No chat history provided.")
    else Prompt(Header + Join(Lines(chatHistory.value)))
  }

  /** A piece without newlines glues onto the first piece of whatever follows it. */
  lemma {:induction false} SplitAfterPiece(x: string, s: string)
    requires '\n' !in x
    ensures SplitLines(x + s) == [x + SplitLines(s)[0]] + SplitLines(s)[1..]
    decreases |x|
  {
    if x != "" {
      assert (x + s)[0] == x[0];
      assert (x + s)[1..] == x[1..] + s;
      SplitAfterPiece(x[1..], s);
      assert [x[0]] + (x[1..] + SplitLines(s)[0]) == x + SplitLines(s)[0];
    } else {
      var parts := SplitLines(s);
      assert x + s == s;
      assert x + parts[0] == parts[0];
      assert parts == [parts[0]] + parts[1..];
    }
  }

  /** Splitting a join of newline-free pieces gives the pieces back. */
  lemma {:induction false} SplitJoin(xs: seq<string>)
    requires xs != []
    requires forall i :: 0 <= i < |xs| ==> '\n' !in xs[i]
    ensures SplitLines(Join(xs)) == xs
    decreases |xs|
  {
    if |xs| == 1 {
      SplitAfterPiece(xs[0], "");
      assert xs[0] + "" == xs[0];
    } else {
      var tail := Join(xs[1..]);
      assert Join(xs) == xs[0] + ("\n" + tail);
      SplitJoin(xs[1..]);
      var nl := "\n" + tail;
      assert nl[0] == '\n' && nl[1..] == tail;
      assert SplitLines(nl) == [""] + xs[1..];
      SplitAfterPiece(xs[0], nl);
      assert xs[0] + "" == xs[0];
      assert xs == [xs[0]] + xs[1..];
    }
  }

  /** Past the header, a prompt is the joined transcript. */
  lemma PromptBody(h: seq<ChatMessage>)
    requires h != []
    ensures BuildPrompt(Some(h)).Prompt?
    ensures BuildPrompt(Some(h)).text[|Header|..] == Join(Lines(h))
  {
  }

  lemma LinesWithoutNewlines(h: seq<ChatMessage>)
    requires forall i :: 0 <= i < |h| ==> '\n' !in Line(h[i])
    ensures forall i :: 0 <= i < |Lines(h)| ==> '\n' !in Lines(h)[i]
  {
  }

  /** When no line holds a newline, the joined transcript splits back into exactly the
      history's lines, in order: nothing is lost, merged or reordered. */
  lemma TranscriptRoundTrip(h: seq<ChatMessage>)
    requires h != []
    requires forall i :: 0 <= i < |h| ==> '\n' !in Line(h[i])
    ensures SplitLines(Join(Lines(h))) == Lines(h)
  {
    LinesWithoutNewlines(h);
    SplitJoin(Lines(h));
  }
}
