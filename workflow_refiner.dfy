/**
 * Prompt refinement (internal/workflow/refiner.go): a template that puts
 * the initial prompt, the user's answers and the gathered context under
 * markdown headings.  The refiner's agent command is stored by the Go type
 * but used by neither operation, so it is not a parameter here.
 */
module WorkflowRefiner {
  import opened Wrappers
  import Strings
  import opened WorkflowSession

  const OverviewHeading := "# Task Overview\n"
  const ClarificationsHeading := "# Clarifications from Discussion\n"
  const ContextHeading := "# Additional Context\n"

  function Overview(initialPrompt: string): string {
    OverviewHeading + initialPrompt + "\n\n"
  }

  function Bullet(content: string): string {
    "- " + content + "\n"
  }

  /** One "- answer" line per user message, in log order. */
  function UserLines(log: seq<Message>): string {
    if log == [] then ""
    else
      var m := log[|log| - 1];
      UserLines(log[..|log| - 1]) + (if m.role == "user" then Bullet(m.content) else "")
  }

  function Clarifications(log: seq<Message>): string {
    if |log| > 0 then ClarificationsHeading + UserLines(log) + "\n" else ""
  }

  /** "## Type (Source)", a Source line when there is a URL, then the content. */
  function ContextBlock(c: Context): string {
    BlockHeading(c) + SourceLine(c.url) + c.content + "\n\n"
  }

  function BlockHeading(c: Context): string {
    "## " + c.kind + " (" + c.source + ")\n"
  }

  function SourceLine(url: string): string {
    if url != "" then "Source: " + url + "\n" else ""
  }

  function ContextBlocks(ctxs: seq<Context>): string {
    if ctxs == [] then ""
    else ContextBlocks(ctxs[..|ctxs| - 1]) + ContextBlock(ctxs[|ctxs| - 1])
  }

  function ContextSection(ctxs: seq<Context>): string {
    if |ctxs| > 0 then ContextHeading + ContextBlocks(ctxs) else ""
  }

  /** The refined prompt for a session's prompt, log and context. */
  function Refined(initialPrompt: string, log: seq<Message>, ctxs: seq<Context>): string {
    Overview(initialPrompt) + Clarifications(log) + ContextSection(ctxs)
  }

  /** The clarification loop: a bullet for each user message. */
  method WriteClarifications(builder: string, log: seq<Message>) returns (b: string)
    ensures b == builder + UserLines(log)
  {
    b := builder;
    var i := 0;
    while i < |log|
      invariant 0 <= i <= |log|
      invariant b == builder + UserLines(log[..i])
    {
      var msg := log[i];
      assert log[..i + 1][..i] == log[..i];
      if msg.role == "user" {
        b := b + Bullet(msg.content);
        Strings.AppendAssoc(builder, UserLines(log[..i]), Bullet(msg.content), UserLines(log[..i + 1]));
      } else {
        assert UserLines(log[..i + 1]) == UserLines(log[..i]) + [];
        assert UserLines(log[..i]) + [] == UserLines(log[..i]);
      }
      i := i + 1;
    }
    assert log[..i] == log;
  }

  /** The context loop: one block per item. */
  method WriteContexts(builder: string, ctxs: seq<Context>) returns (b: string)
    ensures b == builder + ContextBlocks(ctxs)
  {
    b := builder;
    var i := 0;
    while i < |ctxs|
      invariant 0 <= i <= |ctxs|
      invariant b == builder + ContextBlocks(ctxs[..i])
    {
      var ctx := ctxs[i];
      assert ctxs[..i + 1][..i] == ctxs[..i];
      ghost var prev := b;
      b := b + BlockHeading(ctx);
      if ctx.url != "" {
        b := b + SourceLine(ctx.url);
      }
      b := b + ctx.content;
      b := b + "\n\n";
      BlockSteps(prev, ctx);
      Strings.AppendAssoc(builder, ContextBlocks(ctxs[..i]), ContextBlock(ctx), ContextBlocks(ctxs[..i + 1]));
      i := i + 1;
    }
    assert ctxs[..i] == ctxs;
  }

  /** The four writes of one context block make up ContextBlock. */
  lemma BlockSteps(prev: string, c: Context)
    ensures (if c.url != "" then prev + BlockHeading(c) + SourceLine(c.url) else prev + BlockHeading(c)) +
      c.content + "\n\n" == prev + ContextBlock(c)
  {
    var h, u := BlockHeading(c), SourceLine(c.url);
    if c.url == "" {
      assert u == [];
      assert prev + h + u == prev + h;
    }
  }

  /** RefinePrompt: builds the template section by section and never fails. */
  method RefinePrompt(s: Session) returns (r: Result<string, string>)
    ensures r.Ok? && r.value == Refined(s.initialPrompt, s.conversationLog, s.gatheredContext)
  {
    var builder := "";
    builder := builder + OverviewHeading;
    assert builder == OverviewHeading;
    builder := builder + s.initialPrompt;
    builder := builder + "\n\n";
    var afterOverview := builder;
    if |s.conversationLog| > 0 {
      builder := builder + ClarificationsHeading;
      builder := WriteClarifications(builder, s.conversationLog);
      Strings.AppendAssoc(afterOverview, ClarificationsHeading, UserLines(s.conversationLog),
                          ClarificationsHeading + UserLines(s.conversationLog));
      builder := builder + "\n";
      Strings.AppendAssoc(afterOverview, ClarificationsHeading + UserLines(s.conversationLog), "\n",
                          Clarifications(s.conversationLog));
    } else {
      assert afterOverview + Clarifications(s.conversationLog) == afterOverview + [];
      assert afterOverview + [] == afterOverview;
    }
    var afterClarifications := builder;
    if |s.gatheredContext| > 0 {
      builder := builder + ContextHeading;
      builder := WriteContexts(builder, s.gatheredContext);
      Strings.AppendAssoc(afterClarifications, ContextHeading, ContextBlocks(s.gatheredContext),
                          ContextSection(s.gatheredContext));
    } else {
      assert afterClarifications + ContextSection(s.gatheredContext) == afterClarifications + [];
      assert afterClarifications + [] == afterClarifications;
    }
    return Ok(builder);
  }

  const Questions := [
    "Which specific files or directories should be modified?",
    "Are there any related issues, PRs, or documentation to reference?",
    "What is the expected behavior after the changes?",
    "Are there any constraints or requirements to consider?"
  ]

  /** GenerateQuestions: four fixed questions, whatever the prompt says. */
  function GenerateQuestions(initialPrompt: string): (r: seq<string>)
    ensures |r| == 4 && r == Questions
  {
    Questions
  }

  lemma QuestionsIgnorePrompt(p: string, q: string)
    ensures GenerateQuestions(p) == GenerateQuestions(q)
  {
  }

  /** The refined prompt begins with the overview of the initial prompt. */
  lemma RefinedStartsWithOverview(p: string, log: seq<Message>, ctxs: seq<Context>)
    ensures Strings.HasPrefix(Refined(p, log, ctxs), OverviewHeading + p + "\n\n")
  {
    var o, cl, cs := Overview(p), Clarifications(log), ContextSection(ctxs);
    Strings.AppendAssoc(o, cl, cs, cl + cs);
    Strings.PrefixOfAppend(o, cl + cs);
  }

  /** An agent message adds nothing; a user message adds its bullet line. */
  lemma UserLinesAppend(log: seq<Message>, m: Message)
    ensures m.role != "user" ==> UserLines(log + [m]) == UserLines(log)
    ensures m.role == "user" ==> UserLines(log + [m]) == UserLines(log) + "- " + m.content + "\n"
  {
    assert (log + [m])[..|log|] == log;
    if m.role != "user" {
      assert UserLines(log) + [] == UserLines(log);
    }
  }

  /** A log without any user message contributes no bullet lines. */
  lemma {:induction false} NoUserNoLines(log: seq<Message>)
    requires forall i :: 0 <= i < |log| ==> log[i].role != "user"
    ensures UserLines(log) == ""
    decreases |log|
  {
    if log != [] {
      NoUserNoLines(log[..|log| - 1]);
      assert UserLines(log) == UserLines(log[..|log| - 1]) + [];
    }
  }

  /** The clarification section exists exactly when there is a conversation. */
  lemma ClarificationsIffLog(log: seq<Message>)
    ensures Clarifications(log) != "" <==> |log| > 0
    ensures |log| > 0 ==> Strings.HasPrefix(Clarifications(log), ClarificationsHeading)
  {
    if |log| > 0 {
      var c := Clarifications(log);
      assert c == ClarificationsHeading + (UserLines(log) + "\n");
      assert c[..|ClarificationsHeading|] == ClarificationsHeading;
    }
  }

  /** The context section exists exactly when context was gathered. */
  lemma ContextSectionIffContext(ctxs: seq<Context>)
    ensures ContextSection(ctxs) != "" <==> |ctxs| > 0
    ensures |ctxs| > 0 ==> Strings.HasPrefix(ContextSection(ctxs), ContextHeading)
  {
    if |ctxs| > 0 {
      var c := ContextSection(ctxs);
      assert c[..|ContextHeading|] == ContextHeading;
    }
  }

  /** Each block carries a Source line exactly when its item has a URL. */
  lemma ContextBlockShape(c: Context)
    ensures c.url == "" ==> ContextBlock(c) == BlockHeading(c) + c.content + "\n\n"
    ensures c.url != "" ==> ContextBlock(c) == BlockHeading(c) + ("Source: " + c.url + "\n") + c.content + "\n\n"
  {
    if c.url == "" {
      assert BlockHeading(c) + SourceLine(c.url) == BlockHeading(c) + [];
      assert BlockHeading(c) + [] == BlockHeading(c);
    }
  }

  /** A new context item adds its block at the end of the context section. */
  lemma ContextBlocksAppend(ctxs: seq<Context>, c: Context)
    ensures ContextBlocks(ctxs + [c]) == ContextBlocks(ctxs) + ContextBlock(c)
  {
    assert (ctxs + [c])[..|ctxs|] == ctxs;
  }
}
