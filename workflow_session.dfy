/**
 * An interactive workflow session (internal/workflow/types.go and
 * session.go): the initial prompt, the conversation so far, the context
 * gathered for it, and the refined prompt that completes it.  Timestamps and
 * the random session ID are not modelled: the ID is a constructor argument.
 */
module WorkflowSession {
  import Strings

  /** One conversation entry; the role is "agent" or "user". */
  datatype Message = Message(role: string, content: string)

  /** Context gathered from a source such as "github" or "slack". */
  datatype Context = Context(
    source: string,
    kind: string,      // Go's Type: "issue", "pr", "message", "file", ...
    url: string,       // "" when there is none
    content: string,
    metadata: map<string, string>)

  const NoContext := "No additional context gathered."
  const SnippetLen := 100

  function Min(a: int, b: int): (r: int)
    ensures r <= a && r <= b
    ensures r == a || r == b
  {
    if a < b then a else b
  }

  /** The summary line of the item at 0-based position i: the first 100
    * content characters, then a URL line when the item has a URL. */
  function ItemLine(i: nat, c: Context): string {
    if c.url != "" then ItemHead(i, c) + UrlText(c.url) else ItemHead(i, c)
  }

  /** "N. [source:type] snippet" and its newline. */
  function ItemHead(i: nat, c: Context): string {
    HeadText(Strings.NatToString(i + 1), c.source, c.kind, Snippet(c.content))
  }

  function HeadText(number: string, source: string, kind: string, snippet: string): string {
    number + ". [" + source + ":" + kind + "] " + snippet + "\n"
  }

  /** The first 100 characters of the content, or all of it when shorter. */
  function Snippet(content: string): string
  {
    content[..Min(SnippetLen, |content|)]
  }

  function UrlText(url: string): string {
    "   URL: " + url + "\n"
  }

  /** The item lines of the first |ctxs| items, in order. */
  function ItemLines(ctxs: seq<Context>): string {
    if ctxs == [] then ""
    else ItemLines(ctxs[..|ctxs| - 1]) + ItemLine(|ctxs| - 1, ctxs[|ctxs| - 1])
  }

  function SummaryHeader(n: nat): string {
    "Gathered " + Strings.NatToString(n) + " context items:\n"
  }

  /** GetContextSummary's result for the gathered items. */
  function ContextSummary(ctxs: seq<Context>): string {
    if ctxs == [] then NoContext else SummaryHeader(|ctxs|) + ItemLines(ctxs)
  }

  class Session {
    var id: string
    var initialPrompt: string
    var conversationLog: seq<Message>
    var gatheredContext: seq<Context>
    var refinedPrompt: string
    var complete: bool

    /** NewSession: nothing said, nothing gathered, not complete. */
    constructor (id: string, initialPrompt: string)
      ensures this.id == id && this.initialPrompt == initialPrompt
      ensures conversationLog == [] && gatheredContext == []
      ensures refinedPrompt == "" && !complete
    {
      this.id := id;
      this.initialPrompt := initialPrompt;
      conversationLog := [];
      gatheredContext := [];
      refinedPrompt := "";
      complete := false;
    }

    /** AddMessage appends one entry and changes nothing else. */
    method AddMessage(role: string, content: string)
      modifies this
      ensures conversationLog == old(conversationLog) + [Message(role, content)]
      ensures id == old(id) && initialPrompt == old(initialPrompt) && gatheredContext == old(gatheredContext)
      ensures refinedPrompt == old(refinedPrompt) && complete == old(complete)
    {
      conversationLog := conversationLog + [Message(role, content)];
    }

    /** AddContext appends one item and changes nothing else. */
    method AddContext(ctx: Context)
      modifies this
      ensures gatheredContext == old(gatheredContext) + [ctx]
      ensures id == old(id) && initialPrompt == old(initialPrompt) && conversationLog == old(conversationLog)
      ensures refinedPrompt == old(refinedPrompt) && complete == old(complete)
    {
      gatheredContext := gatheredContext + [ctx];
    }

    /** SetRefinedPrompt records the prompt and completes the session. */
    method SetRefinedPrompt(prompt: string)
      modifies this
      ensures refinedPrompt == prompt && IsComplete()
      ensures id == old(id) && initialPrompt == old(initialPrompt)
      ensures conversationLog == old(conversationLog) && gatheredContext == old(gatheredContext)
    {
      refinedPrompt := prompt;
      complete := true;
    }

    function IsComplete(): bool
      reads this
    {
      complete
    }

    /** GetContextSummary: the header and one line per item, built in a loop. */
    method GetContextSummary() returns (summary: string)
      ensures summary == ContextSummary(gatheredContext)
    {
      if |gatheredContext| == 0 {
        return NoContext;
      }
      var header := SummaryHeader(|gatheredContext|);
      summary := header;
      var i := 0;
      while i < |gatheredContext|
        invariant 0 <= i <= |gatheredContext|
        invariant summary == header + ItemLines(gatheredContext[..i])
      {
        var ctx := gatheredContext[i];
        ghost var prev := summary;
        summary := AppendItem(summary, i, ctx);
        ItemLinesStep(gatheredContext, i);
        Strings.AppendAssoc(header, ItemLines(gatheredContext[..i]), ItemLine(i, ctx), ItemLines(gatheredContext[..i + 1]));
        i := i + 1;
      }
      assert gatheredContext[..i] == gatheredContext;
    }
  }

  /** One iteration of GetContextSummary's loop: the item's line, then its
    * URL line when it has a URL. */
  method AppendItem(summary: string, i: nat, ctx: Context) returns (r: string)
    ensures r == summary + ItemLine(i, ctx)
  {
    r := summary + ItemHead(i, ctx);
    if ctx.url != "" {
      r := r + UrlText(ctx.url);
    }
  }

  /** A session goes through its life cycle: only SetRefinedPrompt completes it. */
  method Lifecycle(id: string, prompt: string, answer: string, c: Context, refined: string)
    returns (s: Session, before: bool, after: bool)
    ensures !before && after
    ensures s.conversationLog == [Message("user", answer)] && s.gatheredContext == [c]
    ensures s.initialPrompt == prompt && s.refinedPrompt == refined
  {
    s := new Session(id, prompt);
    s.AddMessage("user", answer);
    s.AddContext(c);
    before := s.IsComplete();
    s.SetRefinedPrompt(refined);
    after := s.IsComplete();
  }

  lemma ItemLinesStep(ctxs: seq<Context>, i: nat)
    requires i < |ctxs|
    ensures ItemLines(ctxs[..i + 1]) == ItemLines(ctxs[..i]) + ItemLine(i, ctxs[i])
  {
    assert ctxs[..i + 1][..i] == ctxs[..i];
  }

  /** The item lines of a prefix are a prefix of the item lines. */
  lemma {:induction false} ItemLinesPrefix(ctxs: seq<Context>, j: nat)
    requires j <= |ctxs|
    ensures ItemLines(ctxs[..j]) <= ItemLines(ctxs)
    decreases |ctxs| - j
  {
    if j < |ctxs| {
      ItemLinesPrefix(ctxs, j + 1);
      ItemLinesStep(ctxs, j);
      var shorter, longer := ItemLines(ctxs[..j]), ItemLines(ctxs[..j + 1]);
      assert longer == shorter + ItemLine(j, ctxs[j]);
      assert shorter <= longer;
    } else {
      assert ctxs[..j] == ctxs;
    }
  }

  /**
   * The summary of a non-empty list begins with the count header, followed
   * by the lines of items 0..i-1 and then by item i's line, for every i.
   */
  lemma SummaryListsEachItem(ctxs: seq<Context>, i: nat)
    requires i < |ctxs|
    ensures SummaryHeader(|ctxs|) + (ItemLines(ctxs[..i]) + ItemLine(i, ctxs[i])) <= ContextSummary(ctxs)
  {
    assert ItemLines(ctxs[..i]) + ItemLine(i, ctxs[i]) <= ItemLines(ctxs) by {
      ItemLinesPrefix(ctxs, i + 1);
      ItemLinesStep(ctxs, i);
    }
    Strings.PrefixAfter(SummaryHeader(|ctxs|), ItemLines(ctxs[..i]) + ItemLine(i, ctxs[i]), ItemLines(ctxs));
  }

  /** Without context the summary is the fixed "no context" sentence, and
    * with context it is not: it starts with the count header instead. */
  lemma SummaryOfNothing(ctxs: seq<Context>)
    ensures ctxs == [] <==> ContextSummary(ctxs) == NoContext
    ensures ctxs != [] ==> SummaryHeader(|ctxs|) <= ContextSummary(ctxs)
  {
    if ctxs != [] {
      var h := SummaryHeader(|ctxs|);
      assert ContextSummary(ctxs) == h + ItemLines(ctxs);
      assert ContextSummary(ctxs)[0] == h[0] == 'G' != NoContext[0];
    }
  }

  /** An item's line shows at most 100 characters of its content, taken
    * from its start, and ends with a URL line exactly when it has a URL. */
  lemma ItemLineShape(i: nat, c: Context)
    ensures |Snippet(c.content)| <= SnippetLen && Snippet(c.content) <= c.content
    ensures |c.content| <= SnippetLen ==> Snippet(c.content) == c.content
    ensures ItemHead(i, c) <= ItemLine(i, c)
    ensures c.url == "" ==> ItemLine(i, c) == ItemHead(i, c)
    ensures c.url != "" ==> ItemLine(i, c) == ItemHead(i, c) + "   URL: " + c.url + "\n"
  {
  }
}
