/** Notification e-mails: HTML escaping of user-supplied text, the shared
    page layout, the five message builders (task assigned, started,
    approved, rejected, process completed) and the choice of mail transport.
    The site URL and the mail settings are environment values passed in as
    parameters; delivery itself is not modelled. */
module Email {
  import opened Wrappers
  import opened Strings

  // ---------------------------------------------------------------------
  // Escaping

  /** The characters `escapeHtml` rewrites. */
  predicate IsSpecial(c: char) {
    c == '&' || c == '<' || c == '>' || c == '"' || c == '\''
  }

  /** Characters that can open or close markup or an attribute value. */
  predicate IsMarkup(c: char) {
    c == '<' || c == '>' || c == '"' || c == '\''
  }

  /** No character of `s` can open or close markup or an attribute. */
  predicate MarkupFree(s: string) {
    forall i :: 0 <= i < |s| ==> !IsMarkup(s[i])
  }

  /** The body of `escapeHtml`: five global replacements, ampersands
      first. */
  function ReplaceChain(s: string): string {
    ReplaceAll(ReplaceAll(ReplaceAll(ReplaceAll(ReplaceAll(
      s, '&', "&amp;"), '<', "&lt;"), '>', "&gt;"), '"', "&quot;"), '\'', "&#39;")
  }

  /** The entity that stands for one character. */
  function EscapeChar(c: char): string {
    match c
    case '&' => "&amp;"
    case '<' => "&lt;"
    case '>' => "&gt;"
    case '"' => "&quot;"
    case '\'' => "&#39;"
    case _ => [c]
  }

  /** Escaping as a per-character map: each character replaced by its
      entity, independently of its neighbours. */
  function EscapeEach(s: string): string
    decreases |s|
  {
    if |s| == 0 then "" else EscapeChar(s[0]) + EscapeEach(s[1..])
  }

  /** Reading entities back: the inverse of escaping. */
  function Unescape(s: string): string
    decreases |s|
  {
    if |s| == 0 then ""
    else if StartsWith(s, "&amp;") then "&" + Unescape(s[5..])
    else if StartsWith(s, "&lt;") then "<" + Unescape(s[4..])
    else if StartsWith(s, "&gt;") then ">" + Unescape(s[4..])
    else if StartsWith(s, "&quot;") then "\"" + Unescape(s[6..])
    else if StartsWith(s, "&#39;") then "'" + Unescape(s[5..])
    else [s[0]] + Unescape(s[1..])
  }

  lemma ReplaceChainConcat(a: string, b: string)
    ensures ReplaceChain(a + b) == ReplaceChain(a) + ReplaceChain(b)
  {
    var s1a := ReplaceAll(a, '&', "&amp;");
    var s1b := ReplaceAll(b, '&', "&amp;");
    ReplaceAllConcat(a, b, '&', "&amp;");
    var s2a := ReplaceAll(s1a, '<', "&lt;");
    var s2b := ReplaceAll(s1b, '<', "&lt;");
    ReplaceAllConcat(s1a, s1b, '<', "&lt;");
    var s3a := ReplaceAll(s2a, '>', "&gt;");
    var s3b := ReplaceAll(s2b, '>', "&gt;");
    ReplaceAllConcat(s2a, s2b, '>', "&gt;");
    var s4a := ReplaceAll(s3a, '"', "&quot;");
    var s4b := ReplaceAll(s3b, '"', "&quot;");
    ReplaceAllConcat(s3a, s3b, '"', "&quot;");
    ReplaceAllConcat(s4a, s4b, '\'', "&#39;");
  }

  lemma ReplaceAllOne(c: char, x: char, rep: string)
    ensures ReplaceAll([c], x, rep) == (if c == x then rep else [c])
  {
    assert [c][1..] == "";
  }

  lemma EscapeAmpersand()
    ensures ReplaceChain("&") == "&amp;"
  {
    ReplaceAllOne('&', '&', "&amp;");
    assert '<' !in "&amp;" && '>' !in "&amp;" && '"' !in "&amp;" && '\'' !in "&amp;";
  }

  lemma EscapeLess()
    ensures ReplaceChain("<") == "&lt;"
  {
    ReplaceAllOne('<', '&', "&amp;");
    ReplaceAllOne('<', '<', "&lt;");
    assert '>' !in "&lt;" && '"' !in "&lt;" && '\'' !in "&lt;";
  }

  lemma EscapeGreater()
    ensures ReplaceChain(">") == "&gt;"
  {
    ReplaceAllOne('>', '&', "&amp;");
    ReplaceAllOne('>', '<', "&lt;");
    ReplaceAllOne('>', '>', "&gt;");
    assert '"' !in "&gt;" && '\'' !in "&gt;";
  }

  lemma EscapeQuote()
    ensures ReplaceChain("\"") == "&quot;"
  {
    ReplaceAllOne('"', '&', "&amp;");
    ReplaceAllOne('"', '<', "&lt;");
    ReplaceAllOne('"', '>', "&gt;");
    ReplaceAllOne('"', '"', "&quot;");
    assert '\'' !in "&quot;";
  }

  lemma EscapeApostrophe()
    ensures ReplaceChain("'") == "&#39;"
  {
    ReplaceAllOne('\'', '&', "&amp;");
    ReplaceAllOne('\'', '<', "&lt;");
    ReplaceAllOne('\'', '>', "&gt;");
    ReplaceAllOne('\'', '"', "&quot;");
    ReplaceAllOne('\'', '\'', "&#39;");
  }

  /** The chain turns one character into its entity. */
  lemma ReplaceChainChar(c: char)
    ensures ReplaceChain([c]) == EscapeChar(c)
  {
    if c == '&' {
      EscapeAmpersand();
    } else if c == '<' {
      EscapeLess();
    } else if c == '>' {
      EscapeGreater();
    } else if c == '"' {
      EscapeQuote();
    } else if c == '\'' {
      EscapeApostrophe();
    } else {
      assert '&' !in [c] && '<' !in [c] && '>' !in [c] && '"' !in [c] && '\'' !in [c];
    }
  }

  /** Because ampersands are replaced first, the chain of replacements is
      the per-character map: no entity produced by one step is rewritten by
      a later one. */
  lemma {:induction false} ReplaceChainIsCharMap(s: string)
    ensures ReplaceChain(s) == EscapeEach(s)
    decreases |s|
  {
    if |s| > 0 {
      assert s == [s[0]] + s[1..];
      ReplaceChainConcat([s[0]], s[1..]);
      ReplaceChainChar(s[0]);
      ReplaceChainIsCharMap(s[1..]);
    }
  }

  lemma {:induction false} EscapeEachFacts(s: string)
    ensures MarkupFree(EscapeEach(s))
    ensures |EscapeEach(s)| >= |s|
    ensures (forall i :: 0 <= i < |s| ==> !IsSpecial(s[i])) ==> EscapeEach(s) == s
    decreases |s|
  {
    if |s| > 0 {
      EscapeEachFacts(s[1..]);
      EscapeCharSafe(s[0]);
      MarkupFreeConcat(EscapeChar(s[0]), EscapeEach(s[1..]));
      if forall i :: 0 <= i < |s| ==> !IsSpecial(s[i]) {
        assert forall i :: 0 <= i < |s[1..]| ==> s[1..][i] == s[i + 1];
        assert s == [s[0]] + s[1..];
      }
    }
  }

  lemma EscapeCharSafe(c: char)
    ensures MarkupFree(EscapeChar(c))
    ensures |EscapeChar(c)| >= 1
  {
    match c
    case '&' => assert EscapeChar(c) == "&amp;";
    case '<' => assert EscapeChar(c) == "&lt;";
    case '>' => assert EscapeChar(c) == "&gt;";
    case '"' => assert EscapeChar(c) == "&quot;";
    case '\'' => assert EscapeChar(c) == "&#39;";
    case _ =>
  }

  lemma MarkupFreeConcat(a: string, b: string)
    requires MarkupFree(a) && MarkupFree(b)
    ensures MarkupFree(a + b)
  {
    assert forall i :: |a| <= i < |a + b| ==> (a + b)[i] == b[i - |a|];
  }


  /** A string whose second character is `x` does not start with an
      entity whose second character differs from `x`. */
  lemma NotEntity(t: string, e: string)
    requires |t| >= 2 && |e| >= 2 && t[1] != e[1]
    ensures !StartsWith(t, e)
  {
  }

  lemma UnescapeAfterEntity(c: char, u: string)
    ensures Unescape(EscapeChar(c) + u) == [c] + Unescape(u)
  {
    var e := EscapeChar(c);
    var t := e + u;
    if IsSpecial(c) {
      assert t[0] == '&' && t[1] == e[1];
      assert t[..|e|] == e && t[|e|..] == u;
      if c != '&' { NotEntity(t, "&amp;"); }
      if c != '<' { NotEntity(t, "&lt;"); }
      if c != '>' { NotEntity(t, "&gt;"); }
      if c != '"' { NotEntity(t, "&quot;"); }
    } else {
      assert t[0] == c && t[1..] == u;
      assert !StartsWith(t, "&amp;") && !StartsWith(t, "&lt;") && !StartsWith(t, "&gt;");
      assert !StartsWith(t, "&quot;") && !StartsWith(t, "&#39;");
    }
  }

  /** Escaping loses nothing: reading the entities back gives the original
      text, so two different names never produce the same HTML. */
  lemma {:induction false} EscapeEachRoundTrip(s: string)
    ensures Unescape(EscapeEach(s)) == s
    decreases |s|
  {
    if |s| > 0 {
      EscapeEachRoundTrip(s[1..]);
      UnescapeAfterEntity(s[0], EscapeEach(s[1..]));
      assert s == [s[0]] + s[1..];
    }
  }

  /** `escapeHtml(s)`. Because ampersands are replaced first, the chain is
      the per-character map to entities; so the result holds no markup
      character, is never shorter than `s`, is `s` itself when nothing
      needed escaping, and reads back to `s`. */
  function EscapeHtml(s: string): (r: string)
    ensures r == EscapeEach(s)
    ensures MarkupFree(r)
    ensures |r| >= |s|
    ensures (forall i :: 0 <= i < |s| ==> !IsSpecial(s[i])) ==> r == s
    ensures Unescape(r) == s
  {
    ReplaceChainIsCharMap(s);
    EscapeEachFacts(s);
    EscapeEachRoundTrip(s);
    ReplaceChain(s)
  }

  // ---------------------------------------------------------------------
  // Message structure and rendering

  const DefaultSiteUrl := "http://localhost:3000"

  /** `process.env.NEXT_PUBLIC_SITE_URL ?? "http://localhost:3000"`: only an
      unset variable falls back; an empty one is kept. */
  function SiteUrl(siteEnv: Option<string>): string {
    siteEnv.GetOr(DefaultSiteUrl)
  }

  /** The deep link to one process instance. */
  function InstanceUrl(siteEnv: Option<string>, instanceId: string): string {
    SiteUrl(siteEnv) + "/process-instances/" + instanceId
  }

  /** The opening of a link element pointing at `url`. */
  function Anchor(url: string): string {
    "<a href=\"" + url + "\""
  }

  /** One line of a bulleted list: a labelled value, or the empty line the
      template leaves when an optional item is absent. */
  datatype Line = Item(name: string, value: string) | Blank

  /** What follows the introduction: a bulleted list or one emphasised
      paragraph. */
  datatype Body = Bullets(lines: seq<Line>) | Emphasis(text: string)

  /** The variable parts of a notification's content block. `greeting` and
      the item values hold HTML, already escaped. */
  datatype Content = Content(heading: string, greeting: string, intro: string, body: Body, url: string, linkText: string)

  datatype Message = Message(subject: string, html: string)

  function RenderLine(l: Line): string {
    match l
    case Item(name, value) => "<li><strong>" + name + ":</strong> " + value + "</li>"
    case Blank => ""
  }

  function RenderLines(lines: seq<Line>): string
    decreases |lines|
  {
    if |lines| == 0 then "" else "      " + RenderLine(lines[0]) + "\n" + RenderLines(lines[1..])
  }

  function RenderBody(b: Body): string {
    match b
    case Bullets(lines) =>
      "    <ul style=\"margin: 8px 0; padding-left: 20px;\">\n" + RenderLines(lines) + "    </ul>\n"
    case Emphasis(text) =>
      "    <p style=\"margin: 8px 0;\"><strong>" + text + "</strong></p>\n"
  }

  /** The content template shared by the five builders: everything up to
      the link to the instance, the link, and the rest. */
  function RenderContent(c: Content): string {
    ContentTop(c) + Anchor(c.url) + ContentBottom(c)
  }

  /** Everything before the link: heading, greeting, introduction and
      body. */
  function ContentTop(c: Content): string {
    BeforeGreeting(c) + Greeting(c) + AfterGreeting(c)
  }

  function BeforeGreeting(c: Content): string {
    "\n    <h2 style=\"margin: 0 0 12px 0; font-size: 18px;\">" + c.heading + "</h2>\n"
    + "    <p style=\"margin: 0 0 8px 0;\">"
  }

  /** The greeting line of a content block, with the greeting as given. */
  function Greeting(c: Content): string {
    "Hello " + c.greeting + ","
  }

  function AfterGreeting(c: Content): string {
    "</p>\n"
    + "    <p style=\"margin: 0 0 8px 0;\">" + c.intro + "</p>\n"
    + RenderBody(c.body)
    + "    <p style=\"margin: 12px 0 0 0;\">"
  }

  function ContentBottom(c: Content): string {
    " style=\"color: #2563eb;\">" + c.linkText + "</a></p>\n  "
  }

  const LayoutHead :=
    "\n<!DOCTYPE html>\n<html>\n"
    + "<head><meta charset=\"utf-8\"><meta name=\"viewport\" content=\"width=device-width,initial-scale=1\"></head>\n"
    + "<body style=\"font-family: system-ui, sans-serif; line-height: 1.5; color: #333; max-width: 560px; margin: 0 auto; padding: 24px;\">\n"
    + "  <div style=\"background: #f8f9fa; border-radius: 8px; padding: 20px; margin-bottom: 16px;\">\n    "

  const LayoutMiddle := "\n  </div>\n  <p style=\"font-size: 12px; color: #666;\">\n    "

  const LayoutTail := " style=\"color: #2563eb;\">Open BPM</a>\n  </p>\n</body>\n</html>"

  /** `emailLayout(content)`: the page around a content block, ending with a
      link to the site. */
  function EmailLayout(siteEnv: Option<string>, content: string): string {
    LayoutHead + content + LayoutMiddle + Anchor(SiteUrl(siteEnv)) + LayoutTail
  }

  /** In a run of five pieces, the first opens it, the second follows at
      the first's length and the last two close it. */
  lemma FivePieces(a: string, b: string, c: string, d: string, e: string)
    ensures StartsWith(a + b + c + d + e, a)
    ensures |a| + |b| <= |a + b + c + d + e|
    ensures (a + b + c + d + e)[|a|..|a| + |b|] == b
    ensures EndsWith(a + b + c + d + e, d + e)
  {
    var w := a + b + c + d + e;
    assert w == a + (b + (c + (d + e)));
    assert w[..|a|] == a;
    assert w[|a|..|a| + |b|] == b;
    assert w[|w| - |d + e|..] == d + e;
  }

  /** The layout opens with the fixed head, places the content block
      verbatim right after it, and closes with the link to the site and
      the fixed tail. */
  lemma LayoutFrames(siteEnv: Option<string>, content: string)
    ensures StartsWith(EmailLayout(siteEnv, content), LayoutHead)
    ensures |LayoutHead| + |content| <= |EmailLayout(siteEnv, content)|
    ensures EmailLayout(siteEnv, content)[|LayoutHead|..|LayoutHead| + |content|] == content
    ensures EndsWith(EmailLayout(siteEnv, content), Anchor(SiteUrl(siteEnv)) + LayoutTail)
  {
    FivePieces(LayoutHead, content, LayoutMiddle, Anchor(SiteUrl(siteEnv)), LayoutTail);
  }

  /** The page a content block is sent as: the block rendered and laid
      out. */
  function Page(siteEnv: Option<string>, c: Content): string {
    EmailLayout(siteEnv, RenderContent(c))
  }

  /** Text found in the middle piece of a concatenation is found in the
      whole. */
  lemma ContainsWithin(a: string, b: string, c: string, t: string)
    requires Contains(b, t)
    ensures Contains(a + b + c, t)
  {
    ContainsAfter(a, b, t);
    ContainsBefore(a + b, c, t);
  }

  /** Text found in the content block is found on the page. */
  lemma ContainsOnPage(siteEnv: Option<string>, content: string, t: string)
    requires Contains(content, t)
    ensures Contains(EmailLayout(siteEnv, content), t)
  {
    var site := Anchor(SiteUrl(siteEnv));
    ContainsWithin(LayoutHead, content, LayoutMiddle, t);
    ContainsBefore(LayoutHead + content + LayoutMiddle, site, t);
    ContainsBefore(LayoutHead + content + LayoutMiddle + site, LayoutTail, t);
  }

  /** The rendered page links both to the instance and to the site. */
  lemma PageLinks(siteEnv: Option<string>, c: Content)
    ensures Contains(Page(siteEnv, c), Anchor(c.url))
    ensures Contains(Page(siteEnv, c), Anchor(SiteUrl(siteEnv)))
  {
    var a := Anchor(c.url);
    ContainsSelf(a);
    ContainsWithin(ContentTop(c), a, ContentBottom(c), a);
    ContainsOnPage(siteEnv, RenderContent(c), a);
    var s := Anchor(SiteUrl(siteEnv));
    ContainsSelf(s);
    ContainsWithin(LayoutHead + RenderContent(c) + LayoutMiddle, s, LayoutTail, s);
  }

  /** The rendered page greets the recipient with the content's greeting
      text. */
  lemma PageGreets(siteEnv: Option<string>, c: Content)
    ensures Contains(Page(siteEnv, c), Greeting(c))
  {
    var g := Greeting(c);
    ContainsSelf(g);
    ContainsWithin(BeforeGreeting(c), g, AfterGreeting(c), g);
    ContainsBefore(ContentTop(c), Anchor(c.url), g);
    ContainsBefore(ContentTop(c) + Anchor(c.url), ContentBottom(c), g);
    ContainsOnPage(siteEnv, RenderContent(c), g);
  }

  /** The texts a reader sees in a content block once entities are read
      back: the greeting name, then each item value or the emphasised
      text, in order. */
  function ShownText(c: Content): seq<string> {
    [Unescape(c.greeting)] + ShownBody(c.body)
  }

  function ShownBody(b: Body): seq<string> {
    match b
    case Bullets(lines) => ShownLines(lines)
    case Emphasis(text) => [Unescape(text)]
  }

  /** The value of an item, once entities are read back; nothing for a
      blank line. */
  function ShownLine(l: Line): seq<string> {
    if l.Item? then [Unescape(l.value)] else []
  }

  function ShownLines(lines: seq<Line>): seq<string>
    decreases |lines|
  {
    if |lines| == 0 then [] else ShownLine(lines[0]) + ShownLines(lines[1..])
  }

  /** The item names of a bulleted body, in order. */
  function ItemNames(b: Body): seq<string> {
    match b
    case Bullets(lines) => LineNames(lines)
    case Emphasis(_) => []
  }

  function LineNames(lines: seq<Line>): seq<string>
    decreases |lines|
  {
    if |lines| == 0 then []
    else (if lines[0].Item? then [lines[0].name] else []) + LineNames(lines[1..])
  }

  /** Every slot that carries payload text is free of markup characters,
      so no name or comment can inject HTML. */
  predicate SafeContent(c: Content) {
    && MarkupFree(c.greeting)
    && match c.body
       case Bullets(lines) => SafeLines(lines)
       case Emphasis(text) => MarkupFree(text)
  }

  /** Every item value of a list is free of markup characters. */
  predicate SafeLines(lines: seq<Line>) {
    forall i :: 0 <= i < |lines| && lines[i].Item? ==> MarkupFree(lines[i].value)
  }

  lemma SafeLinesAppend(a: seq<Line>, b: seq<Line>)
    requires SafeLines(a) && SafeLines(b)
    ensures SafeLines(a + b)
  {
    assert forall i :: |a| <= i < |a + b| ==> (a + b)[i] == b[i - |a|];
  }

  lemma PrependToTwo<T>(x: T, a: T, b: T)
    ensures [x] + [a, b] == [x, a, b]
  {
  }

  lemma PrependToThree<T>(x: T, a: T, b: T, c: T, rest: seq<T>)
    ensures [x] + ([a, b, c] + rest) == [x, a, b, c] + rest
  {
  }

  /** A content block whose greeting is an escaped name and whose list is
      safe: it is safe, the reader sees the name and then the list's
      values, and its item names are the list's. */
  lemma BulletContentFacts(heading: string, name: string, intro: string, lines: seq<Line>, url: string, linkText: string)
    requires SafeLines(lines)
    ensures var c := Content(heading, EscapeHtml(name), intro, Bullets(lines), url, linkText);
      && SafeContent(c)
      && ShownText(c) == [name] + ShownLines(lines)
      && ItemNames(c.body) == LineNames(lines)
  {
  }

  /** One list item per name, each showing the escaped value. */
  function EscapedItems(names: seq<string>, values: seq<string>): (lines: seq<Line>)
    requires |names| == |values|
    ensures |lines| == |names|
    decreases |names|
  {
    if |names| == 0 then []
    else [Item(names[0], EscapeHtml(values[0]))] + EscapedItems(names[1..], values[1..])
  }

  /** One induction step of `EscapedItemsFacts`: an escaped item put in
      front of lines with the facts keeps them. */
  lemma EscapedItemStep(name: string, value: string, rest: seq<Line>, names: seq<string>, values: seq<string>)
    requires forall i :: 0 <= i < |rest| ==> rest[i].Item?
    requires SafeLines(rest) && ShownLines(rest) == values && LineNames(rest) == names
    ensures var lines := [Item(name, EscapeHtml(value))] + rest;
      && (forall i :: 0 <= i < |lines| ==> lines[i].Item?)
      && SafeLines(lines)
      && ShownLines(lines) == [value] + values
      && LineNames(lines) == [name] + names
  {
    var item := Item(name, EscapeHtml(value));
    var lines := [item] + rest;
    assert lines[0] == item && lines[1..] == rest;
    assert forall i :: 1 <= i < |lines| ==> lines[i] == rest[i - 1];
    assert SafeLines([item]);
    SafeLinesAppend([item], rest);
  }

  /** Escaped items carry no markup, show exactly the given values and are
      named by the given names. */
  lemma {:induction false} EscapedItemsFacts(names: seq<string>, values: seq<string>)
    requires |names| == |values|
    ensures var lines := EscapedItems(names, values);
      && (forall i :: 0 <= i < |lines| ==> lines[i].Item?)
      && SafeLines(lines)
      && ShownLines(lines) == values
      && LineNames(lines) == names
    decreases |names|
  {
    if |names| > 0 {
      EscapedItemsFacts(names[1..], values[1..]);
      var rest := EscapedItems(names[1..], values[1..]);
      EscapedItemStep(names[0], values[0], rest, names[1..], values[1..]);
      assert EscapedItems(names, values) == [Item(names[0], EscapeHtml(values[0]))] + rest;
      assert values == [values[0]] + values[1..];
      assert names == [names[0]] + names[1..];
    }
  }

  lemma {:induction false} ShownLinesAppend(a: seq<Line>, b: seq<Line>)
    ensures ShownLines(a + b) == ShownLines(a) + ShownLines(b)
    decreases |a|
  {
    if |a| == 0 {
      assert a + b == b;
    } else {
      assert (a + b)[1..] == a[1..] + b;
      assert (a + b)[0] == a[0];
      ShownLinesAppend(a[1..], b);
    }
  }

  lemma {:induction false} LineNamesAppend(a: seq<Line>, b: seq<Line>)
    ensures LineNames(a + b) == LineNames(a) + LineNames(b)
    decreases |a|
  {
    if |a| == 0 {
      assert a + b == b;
    } else {
      assert (a + b)[1..] == a[1..] + b;
      assert (a + b)[0] == a[0];
      LineNamesAppend(a[1..], b);
    }
  }


  // ---------------------------------------------------------------------
  // The five notifications

  datatype TaskAssignedPayload = TaskAssignedPayload(
    assigneeEmail: string, assigneeName: string, processName: string, taskName: string, instanceId: string)

  datatype TaskStartedPayload = TaskStartedPayload(
    assigneeEmail: string, assigneeName: string, processName: string, taskName: string,
    startedByName: string, instanceId: string)

  datatype TaskApprovedPayload = TaskApprovedPayload(
    toEmail: string, toName: string, processName: string, taskName: string,
    approvedByName: string, instanceId: string)

  datatype TaskRejectedPayload = TaskRejectedPayload(
    toEmail: string, toName: string, processName: string, taskName: string,
    rejectedByName: string, comment: string, instanceId: string)

  datatype ProcessCompletedPayload = ProcessCompletedPayload(
    toEmail: string, toName: string, processName: string, instanceId: string)

  const EnDash := " \U{2013} "

  /** The content block of the task-assigned notification. */
  function TaskAssignedContent(siteEnv: Option<string>, p: TaskAssignedPayload): (c: Content)
    ensures c.url == SiteUrl(siteEnv) + "/process-instances/" + p.instanceId
    ensures c.greeting == EscapeHtml(p.assigneeName)
    ensures SafeContent(c)
    ensures ShownText(c) == [p.assigneeName, p.processName, p.taskName]
    ensures ItemNames(c.body) == ["Process", "Task"]
  {
    var lines := EscapedItems(["Process", "Task"], [p.processName, p.taskName]);
    EscapedItemsFacts(["Process", "Task"], [p.processName, p.taskName]);
    PrependToTwo(p.assigneeName, p.processName, p.taskName);
    BulletContentFacts("New task assigned", p.assigneeName, "You have been assigned to a task in the following process:", lines, InstanceUrl(siteEnv, p.instanceId), "View process &amp; task");
    Content("New task assigned", EscapeHtml(p.assigneeName), "You have been assigned to a task in the following process:", Bullets(lines), InstanceUrl(siteEnv, p.instanceId), "View process &amp; task")
  }

  /** `buildTaskAssignedEmail(p)`. */
  function BuildTaskAssignedEmail(siteEnv: Option<string>, p: TaskAssignedPayload): (m: Message)
    ensures m.subject == "[BPM] Task assigned: " + p.taskName + EnDash + p.processName
    ensures m.html == Page(siteEnv, TaskAssignedContent(siteEnv, p))
  {
    Message("[BPM] Task assigned: " + p.taskName + EnDash + p.processName, Page(siteEnv, TaskAssignedContent(siteEnv, p)))
  }

  /** The content block of the task-started notification. */
  function TaskStartedContent(siteEnv: Option<string>, p: TaskStartedPayload): (c: Content)
    ensures c.url == SiteUrl(siteEnv) + "/process-instances/" + p.instanceId
    ensures c.greeting == EscapeHtml(p.assigneeName)
    ensures SafeContent(c)
    ensures ShownText(c) == [p.assigneeName, p.processName, p.taskName, p.startedByName]
    ensures ItemNames(c.body) == ["Process", "Task", "Started by"]
  {
    var lines := EscapedItems(["Process", "Task", "Started by"], [p.processName, p.taskName, p.startedByName]);
    EscapedItemsFacts(["Process", "Task", "Started by"], [p.processName, p.taskName, p.startedByName]);
    PrependToThree(p.assigneeName, p.processName, p.taskName, p.startedByName, []);
    assert [p.processName, p.taskName, p.startedByName] + [] == [p.processName, p.taskName, p.startedByName];
    BulletContentFacts("Task in progress", p.assigneeName, "A task you can act on has been started:", lines, InstanceUrl(siteEnv, p.instanceId), "View process");
    Content("Task in progress", EscapeHtml(p.assigneeName), "A task you can act on has been started:", Bullets(lines), InstanceUrl(siteEnv, p.instanceId), "View process")
  }

  /** `buildTaskStartedEmail(p)`. */
  function BuildTaskStartedEmail(siteEnv: Option<string>, p: TaskStartedPayload): (m: Message)
    ensures m.subject == "[BPM] Task started: " + p.taskName + EnDash + p.processName
    ensures m.html == Page(siteEnv, TaskStartedContent(siteEnv, p))
  {
    Message("[BPM] Task started: " + p.taskName + EnDash + p.processName, Page(siteEnv, TaskStartedContent(siteEnv, p)))
  }

  /** The content block of the task-approved notification. */
  function TaskApprovedContent(siteEnv: Option<string>, p: TaskApprovedPayload): (c: Content)
    ensures c.url == SiteUrl(siteEnv) + "/process-instances/" + p.instanceId
    ensures c.greeting == EscapeHtml(p.toName)
    ensures SafeContent(c)
    ensures ShownText(c) == [p.toName, p.processName, p.taskName, p.approvedByName]
    ensures ItemNames(c.body) == ["Process", "Task", "Approved by"]
  {
    var lines := EscapedItems(["Process", "Task", "Approved by"], [p.processName, p.taskName, p.approvedByName]);
    EscapedItemsFacts(["Process", "Task", "Approved by"], [p.processName, p.taskName, p.approvedByName]);
    PrependToThree(p.toName, p.processName, p.taskName, p.approvedByName, []);
    assert [p.processName, p.taskName, p.approvedByName] + [] == [p.processName, p.taskName, p.approvedByName];
    BulletContentFacts("Task approved", p.toName, "A task in a process you are involved in has been approved:", lines, InstanceUrl(siteEnv, p.instanceId), "View process");
    Content("Task approved", EscapeHtml(p.toName), "A task in a process you are involved in has been approved:", Bullets(lines), InstanceUrl(siteEnv, p.instanceId), "View process")
  }

  /** `buildTaskApprovedEmail(p)`. */
  function BuildTaskApprovedEmail(siteEnv: Option<string>, p: TaskApprovedPayload): (m: Message)
    ensures m.subject == "[BPM] Task approved: " + p.taskName + EnDash + p.processName
    ensures m.html == Page(siteEnv, TaskApprovedContent(siteEnv, p))
  {
    Message("[BPM] Task approved: " + p.taskName + EnDash + p.processName, Page(siteEnv, TaskApprovedContent(siteEnv, p)))
  }

  /** The comment as the reader sees it: present exactly when non-empty. */
  function ShownComment(comment: string): seq<string> {
    if comment != "" then [comment] else []
  }

  /** The name of the comment item: present exactly when the comment is. */
  function CommentName(comment: string): seq<string> {
    if comment != "" then ["Comment"] else []
  }

  /** `${p.comment ? `<li><strong>Comment:</strong> ...</li>` : ""}`: an
      escaped Comment item when there is a comment, a blank line otherwise;
      either way the reader sees exactly the comment. */
  function CommentLine(comment: string): (line: Line)
    ensures SafeLines([line])
    ensures ShownLines([line]) == ShownComment(comment)
    ensures LineNames([line]) == CommentName(comment)
  {
    var line := if comment != "" then Item("Comment", EscapeHtml(comment)) else Blank;
    assert [line][1..] == [];
    line
  }

  /** The list of the task-rejected notification: Process, Task and
      Rejected by, then the Comment item or a blank line. */
  function RejectedLines(p: TaskRejectedPayload): (lines: seq<Line>)
    ensures SafeLines(lines)
    ensures ShownLines(lines) == [p.processName, p.taskName, p.rejectedByName] + ShownComment(p.comment)
    ensures LineNames(lines) == ["Process", "Task", "Rejected by"] + CommentName(p.comment)
  {
    var fixed := EscapedItems(["Process", "Task", "Rejected by"], [p.processName, p.taskName, p.rejectedByName]);
    EscapedItemsFacts(["Process", "Task", "Rejected by"], [p.processName, p.taskName, p.rejectedByName]);
    var commentLine := CommentLine(p.comment);
    ShownLinesAppend(fixed, [commentLine]);
    LineNamesAppend(fixed, [commentLine]);
    SafeLinesAppend(fixed, [commentLine]);
    fixed + [commentLine]
  }

  /** The content block of the task-rejected notification: the Comment item
      is present exactly when the comment is not empty; otherwise its line
      of the list stays blank. */
  function TaskRejectedContent(siteEnv: Option<string>, p: TaskRejectedPayload): (c: Content)
    ensures c.url == SiteUrl(siteEnv) + "/process-instances/" + p.instanceId
    ensures c.greeting == EscapeHtml(p.toName)
    ensures SafeContent(c)
    ensures ShownText(c) == [p.toName, p.processName, p.taskName, p.rejectedByName] + ShownComment(p.comment)
    ensures ItemNames(c.body) == ["Process", "Task", "Rejected by"] + CommentName(p.comment)
  {
    var lines := RejectedLines(p);
    var intro := "A task in a process you are involved in has been rejected:";
    BulletContentFacts("Task rejected", p.toName, intro, lines, InstanceUrl(siteEnv, p.instanceId), "View process");
    PrependToThree(p.toName, p.processName, p.taskName, p.rejectedByName, ShownComment(p.comment));
    Content("Task rejected", EscapeHtml(p.toName), intro, Bullets(lines), InstanceUrl(siteEnv, p.instanceId), "View process")
  }

  /** `buildTaskRejectedEmail(p)`. */
  function BuildTaskRejectedEmail(siteEnv: Option<string>, p: TaskRejectedPayload): (m: Message)
    ensures m.subject == "[BPM] Task rejected: " + p.taskName + EnDash + p.processName
    ensures m.html == Page(siteEnv, TaskRejectedContent(siteEnv, p))
  {
    Message("[BPM] Task rejected: " + p.taskName + EnDash + p.processName, Page(siteEnv, TaskRejectedContent(siteEnv, p)))
  }

  /** The content block of the process-completed notification. */
  function ProcessCompletedContent(siteEnv: Option<string>, p: ProcessCompletedPayload): (c: Content)
    ensures c.url == SiteUrl(siteEnv) + "/process-instances/" + p.instanceId
    ensures c.greeting == EscapeHtml(p.toName)
    ensures SafeContent(c)
    ensures ShownText(c) == [p.toName, p.processName]
    ensures ItemNames(c.body) == []
  {
    Content(
      "Process completed",
      EscapeHtml(p.toName),
      "The following process has been completed:",
      Emphasis(EscapeHtml(p.processName)),
      InstanceUrl(siteEnv, p.instanceId),
      "View process")
  }

  /** `buildProcessCompletedEmail(p)`. */
  function BuildProcessCompletedEmail(siteEnv: Option<string>, p: ProcessCompletedPayload): (m: Message)
    ensures m.subject == "[BPM] Process completed: " + p.processName
    ensures m.html == Page(siteEnv, ProcessCompletedContent(siteEnv, p))
  {
    Message("[BPM] Process completed: " + p.processName, Page(siteEnv, ProcessCompletedContent(siteEnv, p)))
  }

  /** The task-assigned page links to the instance and to the site and
      greets the assignee by the escaped name. */
  lemma TaskAssignedPage(siteEnv: Option<string>, p: TaskAssignedPayload)
    ensures var html := BuildTaskAssignedEmail(siteEnv, p).html;
      && Contains(html, Anchor(SiteUrl(siteEnv) + "/process-instances/" + p.instanceId))
      && Contains(html, Anchor(SiteUrl(siteEnv)))
      && Contains(html, "Hello " + EscapeHtml(p.assigneeName) + ",")
  {
    var c := TaskAssignedContent(siteEnv, p);
    PageLinks(siteEnv, c);
    PageGreets(siteEnv, c);
  }

  /** The task-started page links to the instance and to the site and
      greets the assignee by the escaped name. */
  lemma TaskStartedPage(siteEnv: Option<string>, p: TaskStartedPayload)
    ensures var html := BuildTaskStartedEmail(siteEnv, p).html;
      && Contains(html, Anchor(SiteUrl(siteEnv) + "/process-instances/" + p.instanceId))
      && Contains(html, Anchor(SiteUrl(siteEnv)))
      && Contains(html, "Hello " + EscapeHtml(p.assigneeName) + ",")
  {
    var c := TaskStartedContent(siteEnv, p);
    PageLinks(siteEnv, c);
    PageGreets(siteEnv, c);
  }

  /** The task-approved page links to the instance and to the site and
      greets the recipient by the escaped name. */
  lemma TaskApprovedPage(siteEnv: Option<string>, p: TaskApprovedPayload)
    ensures var html := BuildTaskApprovedEmail(siteEnv, p).html;
      && Contains(html, Anchor(SiteUrl(siteEnv) + "/process-instances/" + p.instanceId))
      && Contains(html, Anchor(SiteUrl(siteEnv)))
      && Contains(html, "Hello " + EscapeHtml(p.toName) + ",")
  {
    var c := TaskApprovedContent(siteEnv, p);
    PageLinks(siteEnv, c);
    PageGreets(siteEnv, c);
  }

  /** The task-rejected page links to the instance and to the site and
      greets the recipient by the escaped name. */
  lemma TaskRejectedPage(siteEnv: Option<string>, p: TaskRejectedPayload)
    ensures var html := BuildTaskRejectedEmail(siteEnv, p).html;
      && Contains(html, Anchor(SiteUrl(siteEnv) + "/process-instances/" + p.instanceId))
      && Contains(html, Anchor(SiteUrl(siteEnv)))
      && Contains(html, "Hello " + EscapeHtml(p.toName) + ",")
  {
    var c := TaskRejectedContent(siteEnv, p);
    PageLinks(siteEnv, c);
    PageGreets(siteEnv, c);
  }

  /** The process-completed page links to the instance and to the site and
      greets the recipient by the escaped name. */
  lemma ProcessCompletedPage(siteEnv: Option<string>, p: ProcessCompletedPayload)
    ensures var html := BuildProcessCompletedEmail(siteEnv, p).html;
      && Contains(html, Anchor(SiteUrl(siteEnv) + "/process-instances/" + p.instanceId))
      && Contains(html, Anchor(SiteUrl(siteEnv)))
      && Contains(html, "Hello " + EscapeHtml(p.toName) + ",")
  {
    var c := ProcessCompletedContent(siteEnv, p);
    PageLinks(siteEnv, c);
    PageGreets(siteEnv, c);
  }

  // ---------------------------------------------------------------------
  // Transport

  /** The mail settings read from the environment. */
  datatype MailEnv = MailEnv(
    office365TenantId: Option<string>, office365ClientId: Option<string>,
    office365ClientSecret: Option<string>, office365Sender: Option<string>,
    resendApiKey: Option<string>, emailFrom: Option<string>)

  const DefaultFrom := "BPM <onboarding@resend.dev>"
  const NotConfiguredError := "Email is not configured (set Office 365 or RESEND_API_KEY)."

  /** `isOutlookConfigured()`: all four Office 365 settings are set. */
  predicate OutlookConfigured(env: MailEnv) {
    Truthy(env.office365TenantId) && Truthy(env.office365ClientId)
    && Truthy(env.office365ClientSecret) && Truthy(env.office365Sender)
  }

  /** `isEmailConfigured()`: true exactly when `sendEmail` has a transport,
      that is, exactly when it does not answer with the not-configured
      error. */
  function IsEmailConfigured(env: MailEnv): (r: bool)
    ensures r <==> OutlookConfigured(env) || Truthy(env.resendApiKey)
    ensures r <==> EmailTransport(env).Success?
  {
    OutlookConfigured(env) || Truthy(env.resendApiKey)
  }

  datatype Transport = Outlook | Resend(from: string)

  /** The transport `sendEmail` picks: Office 365 whenever it is
      configured, else Resend when its key is set (sending from
      `BPM_EMAIL_FROM` or the default sender), else the not-configured
      error. */
  function EmailTransport(env: MailEnv): (r: Result<Transport, string>)
    ensures OutlookConfigured(env) ==> r == Success(Outlook)
    ensures r.Success? && r.value.Resend? ==> !OutlookConfigured(env) && r.value.from == env.emailFrom.GetOr(DefaultFrom)
    ensures r.Failure? ==> r.error == NotConfiguredError
    ensures !OutlookConfigured(env) ==>
      r == if Truthy(env.resendApiKey) then Success(Resend(env.emailFrom.GetOr(DefaultFrom))) else Failure(NotConfiguredError)
  {
    if OutlookConfigured(env) then Success(Outlook)
    else if !Truthy(env.resendApiKey) then Failure(NotConfiguredError)
    else Success(Resend(env.emailFrom.GetOr(DefaultFrom)))
  }
}
