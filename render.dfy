/**
 * The HTML document the `saveConversation` tool uploads: one paragraph per
 * message, in conversation order, joined by newlines. Roles and contents are
 * inserted verbatim, with no escaping.
 */
module Render {
  import opened Wrappers
  import opened JsValues

  /** One message after its `role` and `content` have been turned into strings. */
  datatype Message = Message(role: string, content: string)

  /** The paragraph for one message. */
  function Line(m: Message): string {
    "<p><strong>" + m.role + ":</strong> " + m.content + "</p>"
  }

  /** The paragraphs of a conversation, in order. */
  function Lines(ms: seq<Message>): (r: seq<string>)
    ensures |r| == |ms|
    ensures forall i :: 0 <= i < |ms| ==> r[i] == Line(ms[i])
  {
    seq(|ms|, i requires 0 <= i < |ms| => Line(ms[i]))
  }

  /** The paragraphs joined with "\n": what `messages.map(...).join("\n")` builds. */
  function RenderHtml(ms: seq<Message>): (html: string)
    ensures html == "" <==> ms == []
  {
    if |ms| == 0 then ""
    else if |ms| == 1 then Line(ms[0])
    else Line(ms[0]) + "\n" + RenderHtml(ms[1..])
  }

  /** Cuts a string at every newline: the inverse of joining lines with "\n", as `RenderHtml` does. */
  function SplitLines(s: string): (parts: seq<string>)
    ensures |parts| >= 1
  {
    if s == [] then [""]
    else
      var rest := SplitLines(s[1..]);
      if s[0] == '\n' then [""] + rest else [[s[0]] + rest[0]] + rest[1..]
  }

  /** The number of newline characters in `s`. */
  function CountNewlines(s: string): nat {
    if s == [] then 0 else (if s[0] == '\n' then 1 else 0) + CountNewlines(s[1..])
  }

  predicate NoNewline(s: string) {
    '\n' !in s
  }

  /** Neither the role nor the content of any message contains a newline. */
  predicate SingleLineMessages(ms: seq<Message>) {
    forall i :: 0 <= i < |ms| ==> NoNewline(ms[i].role) && NoNewline(ms[i].content)
  }

  lemma {:induction false} SplitWithoutNewline(a: string)
    requires NoNewline(a)
    ensures SplitLines(a) == [a]
  {
    if a != [] {
      assert a[0] in a;
      SplitWithoutNewline(a[1..]);
      assert [a[0]] + a[1..] == a;
    }
  }

  lemma {:induction false} SplitAtNewline(a: string, b: string)
    requires NoNewline(a)
    ensures SplitLines(a + "\n" + b) == [a] + SplitLines(b)
  {
    if a == [] {
      assert a + "\n" + b == "\n" + b;
      assert ("\n" + b)[1..] == b;
    } else {
      assert (a + "\n" + b)[1..] == a[1..] + "\n" + b;
      SplitAtNewline(a[1..], b);
      assert [a[0]] + a[1..] == a;
    }
  }

  lemma LineHasNoNewline(m: Message)
    requires NoNewline(m.role) && NoNewline(m.content)
    ensures NoNewline(Line(m))
  {
  }

  /**
   * Splitting the document at its newlines gives back exactly the paragraphs,
   * in conversation order, provided no role or content holds a newline of its own.
   */
  lemma {:induction false} SplitRenderHtml(ms: seq<Message>)
    requires ms != [] && SingleLineMessages(ms)
    ensures SplitLines(RenderHtml(ms)) == Lines(ms)
  {
    LineHasNoNewline(ms[0]);
    if |ms| == 1 {
      SplitWithoutNewline(Line(ms[0]));
    } else {
      SplitRenderHtml(ms[1..]);
      SplitAtNewline(Line(ms[0]), RenderHtml(ms[1..]));
    }
  }

  lemma {:induction false} NewlinesSplit(s: string)
    ensures CountNewlines(s) == |SplitLines(s)| - 1
  {
    if s != [] {
      NewlinesSplit(s[1..]);
    }
  }

  /** n single-line messages render to a document with exactly n - 1 newlines. */
  lemma NewlineCount(ms: seq<Message>)
    requires ms != [] && SingleLineMessages(ms)
    ensures CountNewlines(RenderHtml(ms)) == |ms| - 1
  {
    NewlinesSplit(RenderHtml(ms));
    SplitRenderHtml(ms);
  }

  /** Appending a message appends its paragraph after a newline: order is preserved. */
  lemma {:induction false} RenderHtmlAppend(ms: seq<Message>, m: Message)
    ensures RenderHtml(ms + [m]) == if ms == [] then Line(m) else RenderHtml(ms) + "\n" + Line(m)
  {
    if |ms| > 1 {
      assert (ms + [m])[1..] == ms[1..] + [m];
      RenderHtmlAppend(ms[1..], m);
    } else if |ms| == 1 {
      assert (ms + [m])[1..] == [m];
    }
  }

  /** The string conversions `${m.role}` and `${m.content}` of one array element. */
  function ToMessage(m: JVal): (r: Result<Message, string>)
    ensures m == JNull ==> r == Failure(NullReadMessage("role"))
    ensures m.JObj? && "role" in m.fields && "content" in m.fields
            && m.fields["role"].JStr? && m.fields["content"].JStr?
            ==> r == Success(Message(m.fields["role"].s, m.fields["content"].s))
    ensures m.JObj? && "role" !in m.fields && "content" !in m.fields
            ==> r == Success(Message("undefined", "undefined"))
  {
    match Member(m, "role")
    case Failure(e) => Failure(e)
    case Success(role) =>
      match TemplateString(role)
      case Failure(e) => Failure(e)
      case Success(roleText) =>
        match Member(m, "content")
        case Failure(e) => Failure(e)
        case Success(content) =>
          match TemplateString(content)
          case Failure(e) => Failure(e)
          case Success(contentText) => Success(Message(roleText, contentText))
  }

  /**
   * Each field of a non-null element is converted on its own: the element
   * converts exactly when neither present field shadows `toString`, an
   * absent field reads as "undefined", and a string field is inserted
   * verbatim, whatever the other field holds.
   */
  lemma ToMessageFields(m: JVal)
    requires m != JNull
    ensures ToMessage(m).Success? <==>
      !(Get(m, "role").Some? && HasShadowedToString(Get(m, "role").value))
      && !(Get(m, "content").Some? && HasShadowedToString(Get(m, "content").value))
    ensures ToMessage(m).Failure? ==> ToMessage(m).error == NoPrimitiveMessage
    ensures ToMessage(m).Success? && Get(m, "role").None? ==> ToMessage(m).value.role == "undefined"
    ensures ToMessage(m).Success? && Get(m, "content").None? ==> ToMessage(m).value.content == "undefined"
    ensures ToMessage(m).Success? && Get(m, "role").Some? && Get(m, "role").value.JStr?
            ==> ToMessage(m).value.role == Get(m, "role").value.s
    ensures ToMessage(m).Success? && Get(m, "content").Some? && Get(m, "content").value.JStr?
            ==> ToMessage(m).value.content == Get(m, "content").value.s
  {
    if Get(m, "role").Some? {
      ConversionFailsOnlyOnObjects(Get(m, "role").value);
    }
    if Get(m, "content").Some? {
      ConversionFailsOnlyOnObjects(Get(m, "content").value);
    }
  }

  /**
   * `messages.map(...)`: every element converted in order; the first
   * element whose conversion throws decides the error.
   */
  function ToMessages(items: seq<JVal>): (r: Result<seq<Message>, string>)
    ensures r.Success? <==> forall i :: 0 <= i < |items| ==> ToMessage(items[i]).Success?
    ensures r.Success? ==> |r.value| == |items|
    ensures r.Success? ==> forall i :: 0 <= i < |items| ==> r.value[i] == ToMessage(items[i]).value
    ensures r.Failure? ==>
      exists k :: 0 <= k < |items| && ToMessage(items[k]) == Failure(r.error)
        && (forall i :: 0 <= i < k ==> ToMessage(items[i]).Success?)
  {
    if items == [] then Success([])
    else
      match ToMessage(items[0])
      case Failure(e) => Failure(e)
      case Success(m) =>
        var rest := ToMessages(items[1..]);
        assert forall i :: 1 <= i < |items| ==> items[i] == items[1..][i - 1];
        match rest
        case Failure(e) =>
          var k :| 0 <= k < |items[1..]| && ToMessage(items[1..][k]) == Failure(e)
            && (forall i :: 0 <= i < k ==> ToMessage(items[1..][i]).Success?);
          assert forall i :: 0 <= i < k + 1 ==> ToMessage(items[i]).Success? by {
            forall i | 0 <= i < k + 1 ensures ToMessage(items[i]).Success? {
              if i > 0 { assert items[i] == items[1..][i - 1]; }
            }
          }
          Failure(e)
        case Success(ms) => Success([m] + ms)
  }
}
