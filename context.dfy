/**
 * Prompt assembly (src/context.rs): the system prompt made of the three core
 * memory files, a hint about tools and the skill summaries, followed by the
 * session's summary and history and the new user message.
 */
module Context {
  import opened Wrappers
  import opened Text
  import Store
  import Memory
  import Llm
  import Sessions
  import Skills

  /** The divider between the parts of the system prompt. */
  const Divider: string := "\n\n---\n\n"

  /** The tool hint, appended in two pieces. */
  const ToolHintStart: string := "You have access to tools. Use them when needed to answer questions, "
  const ToolHintEnd: string := "search memory, execute commands, or read files.\n"
  const ToolHint: string := ToolHintStart + ToolHintEnd

  const SkillsHeader: string := "\n# Available Skills\n\n"

  const SummaryPrefix: string := "Previous conversation summary:\n"

  /** `read_core(name).unwrap_or_default()`. */
  function CoreOrEmpty(files: Store.Files, filename: string): (r: string)
    ensures Memory.ValidateCoreRead(filename).Ok? && Store.CorePath(filename) in files ==> r == files[Store.CorePath(filename)]
    ensures Store.CorePath(filename) !in files ==> r == ""
    ensures Memory.ValidateCoreRead(filename).Err? ==> r == ""
  {
    match Memory.ReadCore(files, filename)
    case Ok(s) => s
    case Err(_) => ""
  }

  /** The core-memory part of the prompt, up to and including the tool hint. */
  function CorePart(files: Store.Files): string {
    CoreOrEmpty(files, "identity.md") + Divider + CoreOrEmpty(files, "user.md") + Divider
      + CoreOrEmpty(files, "state.md") + Divider + ToolHint
  }

  /** `format!("- **{}**: {} (use `read_file` to load: {})\n", ..)`. */
  function SkillLine(s: Skills.SkillSummary): string {
    "- **" + s.name + "**: " + s.description + " (use `read_file` to load: " + s.path + ")\n"
  }

  /** The skill lines, in the order of the summaries. */
  function SkillLines(skills: seq<Skills.SkillSummary>): string
    decreases |skills|
  {
    if skills == [] then "" else SkillLines(skills[..|skills| - 1]) + SkillLine(skills[|skills| - 1])
  }

  /** The system prompt build_system_prompt produces. */
  function SystemPrompt(files: Store.Files, skills: seq<Skills.SkillSummary>): string {
    CorePart(files) + (if skills == [] then "" else SkillsHeader + SkillLines(skills))
  }

  /** build_system_prompt, appending piece by piece; it never fails. */
  method BuildSystemPrompt(m: Memory.MemoryManager, skills: seq<Skills.SkillSummary>) returns (prompt: string)
    ensures prompt == SystemPrompt(m.files, skills)
  {
    var files := m.files;
    var identity := CoreOrEmpty(files, "identity.md");
    var user := CoreOrEmpty(files, "user.md");
    var state := CoreOrEmpty(files, "state.md");
    prompt := "";
    prompt := prompt + identity;
    assert prompt == identity;
    prompt := prompt + Divider;
    prompt := prompt + user;
    prompt := prompt + Divider;
    prompt := prompt + state;
    prompt := prompt + Divider;
    prompt := prompt + ToolHintStart;
    prompt := prompt + ToolHintEnd;
    assert prompt == CorePart(files);
    if skills != [] {
      prompt := prompt + SkillsHeader;
      prompt := AppendSkillLines(prompt, skills);
    }
  }

  /** The loop over the skills, each appending its formatted line. */
  method AppendSkillLines(start: string, skills: seq<Skills.SkillSummary>) returns (prompt: string)
    ensures prompt == start + SkillLines(skills)
  {
    prompt := start;
    var i := 0;
    while i < |skills|
      invariant 0 <= i <= |skills|
      invariant prompt == start + SkillLines(skills[..i])
    {
      SkillLinesStep(skills, i);
      var skill := skills[i];
      prompt := prompt + "- **" + skill.name + "**: " + skill.description + " (use `read_file` to load: " + skill.path + ")\n";
      i := i + 1;
    }
    assert skills[..i] == skills;
  }

  lemma SkillLinesStep(skills: seq<Skills.SkillSummary>, i: nat)
    requires i < |skills|
    ensures SkillLines(skills[..i + 1]) == SkillLines(skills[..i]) + SkillLine(skills[i])
  {
    assert skills[..i + 1][..i] == skills[..i];
  }

  /** Every skill gets its line, in order, after the header. */
  lemma {:induction false} SkillLinesInOrder(skills: seq<Skills.SkillSummary>, i: nat, j: nat)
    requires i < j <= |skills|
    ensures IsPrefix(SkillLines(skills[..i]) + SkillLine(skills[i]), SkillLines(skills[..j]))
    decreases j - i
  {
    assert skills[..i + 1][..i] == skills[..i];
    if j > i + 1 {
      SkillLinesInOrder(skills, i, j - 1);
      assert skills[..j][..j - 1] == skills[..j - 1];
    }
  }

  /**
   * The prompt opens with identity.md, user.md and state.md, separated by
   * dividers, then the tool hint; the skills section follows exactly when
   * there are skills.
   */
  lemma SystemPromptShape(files: Store.Files, skills: seq<Skills.SkillSummary>)
    ensures IsPrefix(CoreOrEmpty(files, "identity.md") + Divider + CoreOrEmpty(files, "user.md") + Divider
      + CoreOrEmpty(files, "state.md") + Divider + ToolHint, SystemPrompt(files, skills))
    ensures skills == [] ==> SystemPrompt(files, skills) == CorePart(files)
    ensures skills != [] ==> IsPrefix(CorePart(files) + SkillsHeader, SystemPrompt(files, skills))
  {
  }

  /** What follows a prefix occurs right after it, also behind a common head. */
  lemma OccursAfterPrefix(head: string, a: string, b: string, rest: string)
    requires IsPrefix(a + b, rest)
    ensures OccursAt(head + rest, b, |head + a|)
  {
    assert (head + rest)[|head + a|..|head + a| + |b|] == rest[|a|..|a| + |b|];
    assert rest[..|a + b|] == a + b;
    assert rest[|a|..|a| + |b|] == (a + b)[|a|..];
  }

  /** Each skill's line follows the lines of the skills before it, behind any head. */
  lemma SkillLinesAfterHead(head: string, skills: seq<Skills.SkillSummary>, i: nat)
    requires i < |skills|
    ensures OccursAt(head + SkillLines(skills), SkillLine(skills[i]), |head + SkillLines(skills[..i])|)
  {
    SkillLinesInOrder(skills, i, |skills|);
    assert skills[..|skills|] == skills;
    OccursAfterPrefix(head, SkillLines(skills[..i]), SkillLine(skills[i]), SkillLines(skills));
  }

  lemma SkillsFollowCore(core: string, lines: string)
    ensures core + (SkillsHeader + lines) == core + SkillsHeader + lines
  {
  }

  /** Each skill's line appears in the prompt, and in the order of the summaries. */
  lemma SystemPromptListsSkills(files: Store.Files, skills: seq<Skills.SkillSummary>, i: nat)
    requires i < |skills|
    ensures OccursAt(SystemPrompt(files, skills), SkillLine(skills[i]),
      |CorePart(files) + SkillsHeader + SkillLines(skills[..i])|)
  {
    SkillLinesAfterHead(CorePart(files) + SkillsHeader, skills, i);
    SkillsFollowCore(CorePart(files), SkillLines(skills));
  }

  /** The unwrap_or_default reads: a missing or refused core file leaves its place empty. */
  lemma MissingCoreFilesAreEmpty(files: Store.Files)
    requires Store.CorePath("identity.md") !in files && Store.CorePath("user.md") !in files
    requires Store.CorePath("state.md") !in files
    ensures CorePart(files) == Divider + Divider + Divider + ToolHint
  {
  }

  // ------------------------------------------------------------ messages

  /** The messages build_messages produces. */
  function Messages(prompt: string, session: Sessions.Session, userText: string): seq<Llm.Message> {
    [Llm.System(prompt)]
      + (match session.summary case Some(s) => [Llm.System(SummaryPrefix + s)] case None => [])
      + session.messages
      + [Llm.User(userText)]
  }

  /** build_messages; it never fails. */
  method BuildMessages(m: Memory.MemoryManager, session: Sessions.Session, userText: string, skills: seq<Skills.SkillSummary>)
    returns (messages: seq<Llm.Message>)
    ensures messages == Messages(SystemPrompt(m.files, skills), session, userText)
  {
    messages := [];
    var system := BuildSystemPrompt(m, skills);
    messages := messages + [Llm.System(system)];
    if session.summary.Some? {
      messages := messages + [Llm.System(SummaryPrefix + session.summary.value)];
    }
    messages := messages + session.messages;
    messages := messages + [Llm.User(userText)];
  }

  /**
   * The system prompt comes first, the summary (when the session has one)
   * second, then the whole history unchanged, and the new user message last.
   */
  lemma MessagesLayout(prompt: string, session: Sessions.Session, userText: string)
    ensures var ms := Messages(prompt, session, userText);
      var k := if session.summary.Some? then 2 else 1;
      && |ms| == k + |session.messages| + 1
      && ms[0] == Llm.System(prompt)
      && (session.summary.Some? ==> ms[1] == Llm.System(SummaryPrefix + session.summary.value))
      && ms[k..k + |session.messages|] == session.messages
      && ms[|ms| - 1] == Llm.User(userText)
  {
    var ms := Messages(prompt, session, userText);
    var k := if session.summary.Some? then 2 else 1;
    var head := [Llm.System(prompt)] + (match session.summary case Some(s) => [Llm.System(SummaryPrefix + s)] case None => []);
    assert |head| == k;
    assert ms == head + session.messages + [Llm.User(userText)];
    assert ms[k..k + |session.messages|] == session.messages;
  }

  /** Only the first message, and the summary message, are system messages added by the builder. */
  lemma MessagesRoles(prompt: string, session: Sessions.Session, userText: string)
    ensures var ms := Messages(prompt, session, userText);
      ms[0].role == "system" && ms[|ms| - 1].role == "user" && ms[|ms| - 1].content == Some(userText)
  {
    MessagesLayout(prompt, session, userText);
  }
}
