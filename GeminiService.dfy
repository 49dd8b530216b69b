/**
  What `generateLinkedInPost` and `parseVoiceCommand` do with the hosted model's reply.

  The network call is not modelled: its outcome is the `Reply` parameter. `JSON.parse`
  is the `parse` parameter, a partial function that gives `None` where it would throw.
  Both functions catch every exception, so each always returns a value.
 */
module GeminiService {
  import opened Js
  import opened JsString
  import opened Types

  /** How the `generateContent` call ended: it threw, or it resolved to a response
      whose `text` may be missing. */
  datatype Reply = Threw | Answered(text: Option<string>)

  predicate HasText(reply: Reply) {
    reply.Answered? && reply.text.Some? && reply.text.value != ""
  }

  const PostFailed := "Failed to generate post."
  const PostError := "Error generating post. Please check your API key."

  /** `generateLinkedInPost`: the model's text, or one of two fixed fallbacks. */
  function GenerateLinkedInPost(reply: Reply): (post: string)
    ensures post != ""
    ensures HasText(reply) ==> post == reply.text.value
    ensures reply.Answered? && !HasText(reply) ==> post == PostFailed
    ensures reply.Threw? ==> post == PostError
  {
    match reply
    case Threw => PostError
    case Answered(text) => if HasText(reply) then text.value else PostFailed
  }

  const CouldNotParse := VoiceResult(UnknownKind, None, None, Text("Could not parse response."))
  const ProcessingError := VoiceResult(UnknownKind, None, None, Text("Error processing AI request."))

  /** The opening of a Markdown fenced code block. */
  const Fence := "```"

  /** The next four characters spell `json` in any letter case (`/(json)?/i`). */
  predicate HasJsonTag(s: string) {
    |s| >= 4 && ToLower(s[..4]) == "json"
  }

  // `text.replace(/^```(json)?\s*/i, '')` on a text that starts with a fence.
  // The result is what follows the fence, the optional tag and the white space after
  // them; it does not start with white space.
  function StripOpeningFence(t: string): (r: string)
    requires StartsWith(t, Fence)
    ensures |r| <= |t| - 3 && r == t[|t| - |r|..]
    ensures r == [] || !IsSpace(r[0])
    ensures var skip := if HasJsonTag(t[3..]) then 7 else 3;
      skip <= |t| - |r| && AllSpace(t[skip..|t| - |r|])
  {
    var afterTicks := t[3..];
    var skip := if HasJsonTag(afterTicks) then 7 else 3;
    var afterTag := t[skip..];
    assert afterTag == (if HasJsonTag(afterTicks) then afterTicks[4..] else afterTicks);
    var r := TrimStart(afterTag);
    assert t[skip..|t| - |r|] == afterTag[..|afterTag| - |r|];
    r
  }

  /** `text.replace(/\s*```$/, '')`: a closing fence at the very end goes, together with
      the white space in front of it. */
  function StripClosingFence(t: string): (r: string)
    ensures |r| <= |t| && r == t[..|r|]
    ensures !EndsWith(t, Fence) ==> r == t
    ensures EndsWith(t, Fence) ==>
      |r| <= |t| - 3 && AllSpace(t[|r|..|t| - 3]) && (r == [] || !IsSpace(r[|r| - 1]))
  {
    if EndsWith(t, Fence) then
      var r := TrimEnd(t[..|t| - 3]);
      assert t[|r|..|t| - 3] == t[..|t| - 3][|r|..];
      r
    else t
  }

  /** The text handed to `JSON.parse`: trimmed, and unwrapped from a fenced code block
      when it starts with one. */
  function Clean(text: string): (r: string)
    ensures Trimmed(r)
    ensures StartsWith(Trim(text), Fence) ==> |r| <= |Trim(text)| - 3
  {
    var t := Trim(text);
    if StartsWith(t, Fence) then
      var u := StripOpeningFence(t);
      OpeningFenceKeepsTrimmed(t);
      ClosingFenceKeepsTrimmed(u);
      StripClosingFence(u)
    else t
  }

  /** `parseVoiceCommand` after the model call. */
  function ParseVoiceCommand(reply: Reply, parse: string -> Option<VoiceResult>): (r: VoiceResult)
    ensures reply.Threw? ==> r == ProcessingError
    ensures reply.Answered? && !HasText(reply) ==> r == CouldNotParse
    ensures HasText(reply) ==>
      r == (match parse(Clean(reply.text.value)) case Some(v) => v case None => ProcessingError)
  {
    match reply
    case Threw => ProcessingError
    case Answered(text) =>
      if !HasText(reply) then CouldNotParse
      else
        match parse(Clean(text.value))
        case Some(v) => v
        case None => ProcessingError
  }

  /** Every failure is reported as an `unknown` result with a non-empty message; any
      other result is exactly what the parser made of the cleaned text. */
  lemma ParseFailuresAreUnknown(reply: Reply, parse: string -> Option<VoiceResult>)
    ensures var r := ParseVoiceCommand(reply, parse);
      || (r.kind == UnknownKind && Truthy(r.message) && (r == CouldNotParse || r == ProcessingError))
      || (HasText(reply) && parse(Clean(reply.text.value)) == Some(r))
  {
  }

  /** An empty or missing reply text never reaches the parser: the result is the same
      whatever the parser. */
  lemma EmptyReplySkipsParser(text: Option<string>, p: string -> Option<VoiceResult>, q: string -> Option<VoiceResult>)
    requires text.None? || text.value == ""
    ensures ParseVoiceCommand(Answered(text), p) == ParseVoiceCommand(Answered(text), q) == CouldNotParse
  {
  }

  lemma OpeningFenceKeepsTrimmed(t: string)
    requires StartsWith(t, Fence) && Trimmed(t)
    ensures Trimmed(StripOpeningFence(t))
  {
    var afterTicks := t[3..];
    var afterTag := if HasJsonTag(afterTicks) then afterTicks[4..] else afterTicks;
    assert afterTag == t[|t| - |afterTag|..];
    var u := TrimStart(afterTag);
    assert u == t[|t| - |u|..];
  }

  lemma ClosingFenceKeepsTrimmed(u: string)
    requires Trimmed(u)
    ensures Trimmed(StripClosingFence(u))
  {
    if EndsWith(u, Fence) {
      var w := TrimEnd(u[..|u| - 3]);
      assert w == u[..|w|];
    }
  }

  /** Text that does not start with a fence reaches the parser only trimmed. */
  lemma CleanUnfenced(text: string)
    requires !StartsWith(Trim(text), Fence)
    ensures Clean(text) == Trim(text)
  {
  }

  /** A trimmed JSON body, bare or padded with white space, cleans to itself. */
  lemma CleanBare(pre: string, body: string, post: string)
    requires AllSpace(pre) && AllSpace(post)
    requires Trimmed(body) && !StartsWith(body, Fence)
    ensures Clean(pre + body + post) == body
  {
    TrimPadding(pre, body, post);
  }

  /** A trimmed JSON body wrapped in a fenced block, untagged or tagged `json` in any
      letter case, cleans to the body. */
  lemma CleanFenced(tag: string, body: string)
    requires tag == "" || (|tag| == 4 && ToLower(tag) == "json")
    requires Trimmed(body)
    ensures Clean(Fence + tag + "\n" + body + "\n" + Fence) == body
  {
    var text := Fence + tag + "\n" + body + "\n" + Fence;
    var rest := body + "\n" + Fence;
    assert text == Fence + tag + ("\n" + rest);
    CleanOpened(tag, "\n" + rest);
    OpeningLineBreak(body);
    ClosingFenceAfter(body);
  }

  /** A fence with its tag, directly followed by a line break, is stripped together with
      the white space after it. */
  lemma CleanOpened(tag: string, s: string)
    requires tag == "" || (|tag| == 4 && ToLower(tag) == "json")
    requires s != [] && s[0] == '\n' && EndsWith(s, Fence)
    ensures Clean(Fence + tag + s) == StripClosingFence(TrimStart(s))
  {
    var text := Fence + tag + s;
    assert text == Fence + (tag + s);
    assert EndsWith(tag + s, Fence) by {
      assert (tag + s)[|tag + s| - 3..] == s[|s| - 3..];
    }
    FencedTextIsTrimmed(tag + s);
    OpeningFenceTag(tag, s);
    CleanFencedText(text);
  }

  lemma CleanFencedText(text: string)
    requires Trim(text) == text && StartsWith(text, Fence)
    ensures Clean(text) == StripClosingFence(StripOpeningFence(text))
  {
  }

  /** The line break after the opening fence goes with the white space. */
  lemma OpeningLineBreak(body: string)
    requires Trimmed(body)
    ensures TrimStart("\n" + (body + "\n" + Fence)) == (if body == [] then Fence else body + "\n" + Fence)
  {
    if body == [] {
      assert "\n" + (body + "\n" + Fence) == "\n\n" + Fence;
      TrimStartPadding("\n\n", Fence);
    } else {
      TrimStartPadding("\n", body + "\n" + Fence);
    }
  }

  /** The closing fence goes with the line break in front of it. */
  lemma ClosingFenceAfter(body: string)
    requires Trimmed(body)
    ensures StripClosingFence(if body == [] then Fence else body + "\n" + Fence) == body
  {
    if body == [] {
      assert Fence[..0] == [];
    } else {
      var u := body + "\n" + Fence;
      assert u[..|u| - 3] == body + "\n";
      TrimEndPadding(body, "\n");
    }
  }

  /** A text that opens and closes with a fence is already trimmed. */
  lemma FencedTextIsTrimmed(s: string)
    requires EndsWith(s, Fence)
    ensures Trim(Fence + s) == Fence + s
  {
    var text := Fence + s;
    assert text[0] == '`' && text[|text| - 1] == '`';
    TrimPadding([], text, []);
    assert [] + text + [] == text;
  }

  /** The opening fence and its tag (none, or `json` in any case) are removed up to a
      following line break. */
  lemma OpeningFenceTag(tag: string, s: string)
    requires tag == "" || (|tag| == 4 && ToLower(tag) == "json")
    requires s != [] && s[0] == '\n'
    ensures StartsWith(Fence + tag + s, Fence)
    ensures StripOpeningFence(Fence + tag + s) == TrimStart(s)
  {
    var text := Fence + tag + s;
    assert text[..3] == Fence;
    var afterTicks := text[3..];
    assert afterTicks == tag + s;
    if tag == "" {
      assert afterTicks == s;
      if |afterTicks| >= 4 {
        assert ToLower(afterTicks[..4])[0] == '\n';
      }
    } else {
      assert afterTicks[..4] == tag;
      assert afterTicks[4..] == s;
    }
  }

  /** A fenced reply and its bare body reach the same parse result. */
  lemma FencedAndBareParseAlike(tag: string, body: string, parse: string -> Option<VoiceResult>)
    requires tag == "" || (|tag| == 4 && ToLower(tag) == "json")
    requires Trimmed(body) && body != [] && !StartsWith(body, Fence)
    ensures ParseVoiceCommand(Answered(Some(Fence + tag + "\n" + body + "\n" + Fence)), parse)
         == ParseVoiceCommand(Answered(Some(body)), parse)
  {
    var fenced := Fence + tag + "\n" + body + "\n" + Fence;
    CleanFenced(tag, body);
    CleanBody(body);
    SameCleanSameParse(fenced, body, parse);
  }

  /** A trimmed body that does not open a fence cleans to itself. */
  lemma CleanBody(body: string)
    requires Trimmed(body) && !StartsWith(body, Fence)
    ensures Clean(body) == body
  {
    CleanBare([], body, []);
    assert [] + body + [] == body;
  }

  /** Two replies that clean to the same text are parsed alike. */
  lemma SameCleanSameParse(a: string, b: string, parse: string -> Option<VoiceResult>)
    requires a != [] && b != [] && Clean(a) == Clean(b)
    ensures ParseVoiceCommand(Answered(Some(a)), parse) == ParseVoiceCommand(Answered(Some(b)), parse)
  {
  }
}
