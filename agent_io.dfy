/** Message constructors and error rendering (src/agent_io.py). Schema loading and
    validation are not part of this model. */
module AgentIo {
  import opened Text

  datatype ChatMessage = ChatMessage(role: string, content: string)

  /** make_ok_message: an assistant message carrying the content. */
  function MakeOkMessage(content: string): (m: ChatMessage)
    ensures m.role == "assistant" && m.content == content
  {
    ChatMessage("assistant", content)
  }

  /** make_user_message: a user message carrying the content. */
  function MakeUserMessage(content: string): (m: ChatMessage)
    ensures m.role == "user" && m.content == content
  {
    ChatMessage("user", content)
  }

  /** One step of a JSON path: an object key or an array index. */
  datatype PathSegment = Key(name: string) | Index(i: nat)

  /** The error kinds error_to_string tells apart. */
  datatype Error =
    | ValidationError(message: string, path: seq<PathSegment>)
    | OtherError(typeName: string, text: string)

  /** `[i]` for an index, `.name` for a key. */
  function SegmentText(p: PathSegment): (s: string)
    ensures p.Index? ==> s == "[" + NatToString(p.i) + "]"
    ensures p.Key? ==> s == "." + p.name
  {
    match p
    case Index(i) => "[" + NatToString(i) + "]"
    case Key(k) => "." + k
  }

  /** The rendered segments, in order: empty for no segments, otherwise led by the
      first segment's text, which starts with '.' or '['. */
  function SegmentsText(path: seq<PathSegment>): (s: string)
    ensures path == [] ==> s == ""
    ensures path != [] ==> SegmentText(path[0]) <= s && (s[0] == '.' || s[0] == '[')
  {
    if |path| == 0 then "" else SegmentText(path[0]) + SegmentsText(path[1..])
  }

  /** "$" followed by every segment's rendering. */
  function RenderPath(path: seq<PathSegment>): (s: string)
    ensures |s| >= 1 && s[0] == '$'
    ensures path == [] ==> s == "$"
  {
    "$" + SegmentsText(path)
  }

  /** Appending a segment extends the rendered path by exactly that segment's text. */
  lemma {:induction false} RenderPathAppend(path: seq<PathSegment>, p: PathSegment)
    ensures RenderPath(path + [p]) == RenderPath(path) + SegmentText(p)
  {
    SegmentsTextAppend(path, p);
  }

  lemma {:induction false} SegmentsTextAppend(path: seq<PathSegment>, p: PathSegment)
    ensures SegmentsText(path + [p]) == SegmentsText(path) + SegmentText(p)
  {
    if |path| == 0 {
      assert path + [p] == [p];
    } else {
      assert (path + [p])[0] == path[0];
      assert (path + [p])[1..] == path[1..] + [p];
      SegmentsTextAppend(path[1..], p);
    }
  }

  /** error_to_string: "<message> at <path>" for a validation error,
      "<TypeName>: <text>" for anything else. */
  function ErrorToString(e: Error): (s: string)
    ensures e.ValidationError? ==>
              s == e.message + " at " + RenderPath(e.path)
              && s[|e.message|..|e.message| + 5] == " at $"
    ensures e.OtherError? ==> s == e.typeName + ": " + e.text
  {
    match e
    case ValidationError(m, path) =>
      var s := m + " at " + RenderPath(path);
      assert s[|m|..|m| + 5] == " at " + [RenderPath(path)[0]];
      s
    case OtherError(t, x) => t + ": " + x
  }

  /** A path into `user` then index 3 renders as `$.user[3]`. */
  lemma RenderPathExample()
    ensures RenderPath([Key("user"), Index(3)]) == "$.user[3]"
  {
    assert NatToString(3) == "3";
    RenderPathAppend([Key("user")], Index(3));
    RenderPathAppend([], Key("user"));
  }
}
