/** The chat sidebar of one participant: the received messages, how each is labelled and
    rendered, and the guards in front of the `send-message` emit and the summarize request. */
module ChatPanel {
  import opened Base
  import opened JsText
  import Summarize

  /** The extensions the image test accepts, lower case. */
  const ImageExtensions: set<string> := {"jpeg", "jpg", "gif", "png", "webp"}

  /** `/\.(jpeg|jpg|gif|png|webp)$/i.test(url)`: a dot and one of the five extensions at the very
      end of the URL, letters compared without regard to case. */
  predicate IsImageUrl(url: string)
    ensures IsImageUrl(url) ==> (|url| >= 4 && url[|url| - 4] == '.') || (|url| >= 5 && url[|url| - 5] == '.')
  {
    var u := LowerAscii(url);
    EndsWith(u, ".jpeg") || EndsWith(u, ".jpg") || EndsWith(u, ".gif") || EndsWith(u, ".png") || EndsWith(u, ".webp")
  }

  /** The position of the last '.' of `s`, if it has one. */
  function LastDot(s: string): (r: Option<nat>)
    ensures r.Some? ==> r.value < |s| && s[r.value] == '.' && forall i :: r.value < i < |s| ==> s[i] != '.'
    ensures r.None? ==> forall i :: 0 <= i < |s| ==> s[i] != '.'
  {
    if s == [] then None
    else if s[|s| - 1] == '.' then Some(|s| - 1)
    else LastDot(s[..|s| - 1])
  }

  /** The file extension of `s`: everything after its last dot. */
  function Extension(s: string): Option<string> {
    match LastDot(s)
    case None => None
    case Some(i) => Some(s[i + 1..])
  }

  /** Ending in `.ext`, for an `ext` without a dot, is having the extension `ext`. */
  lemma SuffixIsExtension(s: string, ext: string)
    requires forall k :: 0 <= k < |ext| ==> ext[k] != '.'
    ensures EndsWith(s, "." + ext) <==> Extension(s) == Some(ext)
  {
    var dotted := "." + ext;
    if EndsWith(s, dotted) {
      var j := |s| - |dotted|;
      assert s[j..] == dotted;
      assert s[j] == dotted[0] == '.';
      forall i | j < i < |s|
        ensures s[i] != '.'
      {
        assert s[i] == dotted[i - j] == ext[i - j - 1];
      }
      var d := LastDot(s);
      assert d.Some?;
      assert d.value == j;
      assert s[j + 1..] == dotted[1..] == ext;
    }
    if Extension(s) == Some(ext) {
      var i := LastDot(s).value;
      assert s[i + 1..] == ext;
      assert s[i..] == [s[i]] + s[i + 1..] == dotted;
      assert |s| - |dotted| == i;
    }
  }

  /** The pattern accepts exactly the URLs whose lower-cased extension is one of the five. */
  lemma ImageUrlByExtension(url: string)
    ensures IsImageUrl(url) <==> var e := Extension(LowerAscii(url)); e.Some? && e.value in ImageExtensions
  {
    var u := LowerAscii(url);
    SuffixIsExtension(u, "jpeg");
    SuffixIsExtension(u, "jpg");
    SuffixIsExtension(u, "gif");
    SuffixIsExtension(u, "png");
    SuffixIsExtension(u, "webp");
    assert "." + "jpeg" == ".jpeg" && "." + "jpg" == ".jpg" && "." + "gif" == ".gif";
    assert "." + "png" == ".png" && "." + "webp" == ".webp";
  }

  /** Case does not matter to the test. */
  lemma ImageUrlIgnoresCase(url: string)
    ensures IsImageUrl(url) <==> IsImageUrl(LowerAscii(url))
  {
    assert LowerAscii(LowerAscii(url)) == LowerAscii(url);
  }

  /** The `i` flag at work: an upper-case `.JPG` extension is accepted. */
  lemma UpperCaseJpgAccepted(stem: string)
    ensures IsImageUrl(stem + ".JPG")
  {
    var u := LowerAscii(stem + ".JPG");
    var n := |stem|;
    assert (stem + ".JPG")[n + 1] == 'J' && (stem + ".JPG")[n + 2] == 'P' && (stem + ".JPG")[n + 3] == 'G';
    assert u[|u| - 4..] == ".jpg";
  }

  /** `msg.displayName || participants[msg.senderId] || msg.senderId.substring(0, 5)`: always
      some text, since a connection id is never empty. */
  function SenderLabel(msg: ChatMessage, participants: map<ConnId, string>): (tag: string)
    ensures tag != ""
    ensures msg.displayName != "" ==> tag == msg.displayName
    ensures msg.displayName == "" && msg.senderId in participants && participants[msg.senderId] != "" ==>
      tag == participants[msg.senderId]
    ensures msg.displayName == "" && (msg.senderId !in participants || participants[msg.senderId] == "") ==>
      tag == Head(msg.senderId, 5) && StartsWith(msg.senderId, tag) && |tag| == if |msg.senderId| < 5 then |msg.senderId| else 5
  {
    if msg.displayName != "" then msg.displayName
    else if msg.senderId in participants && participants[msg.senderId] != "" then participants[msg.senderId]
    else Head(msg.senderId, 5)
  }

  datatype Render = Image | Link | Text

  /** How a message body is shown: an image, else a link, else plain text. */
  function RenderKind(message: string): (k: Render)
    ensures k == Image <==> IsImageUrl(message)
    ensures k == Link <==> !IsImageUrl(message) && StartsWith(message, "http")
    ensures k == Text <==> !IsImageUrl(message) && !StartsWith(message, "http")
  {
    if IsImageUrl(message) then Image
    else if StartsWith(message, "http") then Link
    else Text
  }

  /** The image test wins over the link test: an `http` URL with an image extension is shown as an image. */
  lemma ImageBeforeLink(message: string)
    requires StartsWith(message, "http")
    requires var e := Extension(LowerAscii(message)); e.Some? && e.value in ImageExtensions
    ensures RenderKind(message) == Image
  {
    ImageUrlByExtension(message);
  }

  class Panel {
    const roomId: RoomId
    var draft: string                 // the `message` input
    var messages: seq<ChatMessage>
    var isSummarizing: bool
    var summary: Option<string>
    var outbox: seq<ClientEmit>

    constructor (roomId: RoomId)
      ensures this.roomId == roomId && draft == "" && messages == []
      ensures !isSummarizing && summary == None && outbox == []
    {
      this.roomId := roomId;
      draft, messages := "", [];
      isSummarizing, summary, outbox := false, None, [];
    }

    /** The text input. */
    method SetDraft(text: string)
      modifies this`draft
      ensures draft == text
    {
      draft := text;
    }

    /** `handleReceiveMessage`: the message goes at the end; earlier ones keep their places. */
    method HandleReceiveMessage(payload: ChatMessage)
      modifies this`messages
      ensures messages == old(messages) + [payload]
      ensures |messages| == old(|messages|) + 1 && messages[..old(|messages|)] == old(messages)
    {
      messages := messages + [payload];
    }

    /** `sendTextMessage`: blank text is not sent; other text is sent as typed, to this room. */
    method SendTextMessage(text: string)
      modifies this`outbox
      ensures Trim(text) == "" ==> outbox == old(outbox)
      ensures Trim(text) != "" ==> outbox == old(outbox) + [SendMessage(roomId, text)]
    {
      if Trim(text) == "" {
        return;
      }
      outbox := outbox + [SendMessage(roomId, text)];
    }

    /** `handleFormSubmit`: send the draft, then clear it whether or not it was sent. */
    method HandleFormSubmit()
      modifies this`outbox, this`draft
      ensures Trim(old(draft)) == "" ==> outbox == old(outbox)
      ensures Trim(old(draft)) != "" ==> outbox == old(outbox) + [SendMessage(roomId, old(draft))]
      ensures draft == ""
    {
      SendTextMessage(draft);
      draft := "";
    }

    /** The synchronous part of `handleSummarize`: with no messages it only alerts and sends
        nothing; otherwise it marks the panel busy, clears the old summary and returns the
        `chatHistory` the request carries, which the server never refuses. */
    method HandleSummarize() returns (request: Option<seq<ChatMessage>>)
      modifies this`isSummarizing, this`summary
      ensures messages == [] ==> request == None && isSummarizing == old(isSummarizing) && summary == old(summary)
      ensures messages != [] ==> request == Some(messages) && isSummarizing && summary == None
      ensures request.Some? ==> Summarize.BuildPrompt(request).Prompt?
    {
      if |messages| == 0 {
        return None;
      }
      isSummarizing := true;
      summary := None;
      request := Some(messages);
    }
  }
}
