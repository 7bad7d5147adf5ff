/**
 * Skill discovery (src/skills.rs): every sub-directory of `<base>/skills`
 * holding a SKILL.md file is a skill, summarised by its directory name, the
 * first line of SKILL.md that is neither a heading nor blank, and the path of
 * the file. The summaries come back sorted by name.
 */
module Skills {
  import opened Wrappers
  import opened Text

  datatype SkillSummary = SkillSummary(name: string, description: string, path: string)

  /** What `<dir>/SKILL.md` turned out to be. */
  datatype SkillFile = NoSkillFile | SkillText(content: string) | Unreadable

  /** One entry of the skills directory. */
  datatype Entry = FileEntry(name: string) | DirEntry(name: string, skillFile: SkillFile)

  /** The skills directory: absent, present but not listable, or its entries in `read_dir` order. */
  datatype SkillsDir = Missing | Unlistable | Listed(entries: seq<Entry>)

  datatype SkillError = ListFailed | ReadFailed(path: string)

  // ------------------------------------------------------------ description

  /** `char::is_whitespace`: the Unicode White_Space property. */
  predicate IsWhitespace(c: char) {
    || '\t' <= c <= '\r' || c == ' ' || c == '\U{85}' || c == '\U{A0}' || c == '\U{1680}'
    || '\U{2000}' <= c <= '\U{200A}' || c == '\U{2028}' || c == '\U{2029}' || c == '\U{202F}'
    || c == '\U{205F}' || c == '\U{3000}'
  }

  /** `l.trim().is_empty()`. */
  predicate Blank(l: string) {
    forall i :: 0 <= i < |l| ==> IsWhitespace(l[i])
  }

  /** A line that can describe a skill: not a heading and not blank. */
  predicate IsDescriptionLine(l: string) {
    !(|l| > 0 && l[0] == '#') && !Blank(l)
  }

  /** `lines.find(..).unwrap_or("")`: the first description line, or "". */
  function FirstDescription(lines: seq<string>): string
    decreases |lines|
  {
    if lines == [] then ""
    else if IsDescriptionLine(lines[0]) then lines[0]
    else FirstDescription(lines[1..])
  }

  /** "" exactly when no line describes the skill; otherwise the first line that does. */
  lemma {:induction false} FirstDescriptionIsFirst(lines: seq<string>)
    ensures FirstDescription(lines) == "" <==> forall k :: 0 <= k < |lines| ==> !IsDescriptionLine(lines[k])
    ensures FirstDescription(lines) != "" ==>
      exists k :: (0 <= k < |lines| && lines[k] == FirstDescription(lines)
        && IsDescriptionLine(lines[k]) && forall j :: 0 <= j < k ==> !IsDescriptionLine(lines[j]))
    decreases |lines|
  {
    if lines != [] && !IsDescriptionLine(lines[0]) {
      var rest := lines[1..];
      FirstDescriptionIsFirst(rest);
      assert forall k :: 1 <= k < |lines| ==> lines[k] == rest[k - 1];
      if FirstDescription(rest) != "" {
        var k :| 0 <= k < |rest| && rest[k] == FirstDescription(rest) && IsDescriptionLine(rest[k])
          && forall j :: 0 <= j < k ==> !IsDescriptionLine(rest[j]);
        assert lines[k + 1] == rest[k];
      }
    } else if lines != [] {
      assert lines[0] != "";
    }
  }

  function Description(content: string): string {
    FirstDescription(Lines(content))
  }

  /** One step of `str::lines` at the first line ending. */
  lemma LinesStep(s: string, i: nat)
    requires i < |s| && s[i] == '\n'
    requires forall j :: 0 <= j < i ==> s[j] != '\n'
    ensures Lines(s) == [StripCR(s[..i])] + Lines(s[i + 1..])
  {
  }

  /** A heading and a blank line are skipped; the line after them describes the skill. */
  lemma DescriptionAfterHeading(heading: string, line: string)
    requires |heading| > 0 && heading[0] == '#' && '\n' !in heading
    requires '\n' !in line && IsDescriptionLine(line)
    ensures Description(heading + "\n\n" + line) == line
  {
    var s := heading + "\n\n" + line;
    var n := |heading|;
    assert s[n] == '\n';
    LinesStep(s, n);
    assert s[..n] == heading && s[n + 1..] == "\n" + line;
    LinesStep("\n" + line, 0);
    assert ("\n" + line)[1..] == line;
    assert Lines(line) == [line];
    var lines := [StripCR(heading), "", line];
    assert Lines(s) == lines;
    assert !IsDescriptionLine(lines[0]);
    assert lines[1..] == ["", line];
    assert !IsDescriptionLine(lines[1..][0]);
    assert lines[1..][1..] == [line];
    assert FirstDescription(lines[1..][1..]) == line;
    assert FirstDescription(lines[1..]) == line;
    assert FirstDescription(lines) == line;
  }

  /** A SKILL.md of a heading and a blank line gives an empty description. */
  lemma DescriptionOnlyHeadings(heading: string, blank: string)
    requires |heading| > 0 && heading[0] == '#' && '\n' !in heading
    requires '\n' !in blank && Blank(blank)
    ensures Description(heading + "\n" + blank) == ""
  {
    var s := heading + "\n" + blank;
    var n := |heading|;
    assert s[n] == '\n';
    LinesStep(s, n);
    assert s[..n] == heading && s[n + 1..] == blank;
    var lines := [StripCR(heading)] + Lines(blank);
    assert Lines(s) == lines;
    assert !IsDescriptionLine(lines[0]);
    assert lines[1..] == Lines(blank);
    if blank != [] {
      assert Lines(blank) == [blank];
      assert !IsDescriptionLine(blank);
      assert FirstDescription([blank]) == FirstDescription([]);
    }
  }

  // ------------------------------------------------------------ paths

  function SkillsDirPath(base: string): string {
    PathJoin(base, "skills")
  }

  function SkillPath(base: string, name: string): (r: string)
    ensures IsSuffix("SKILL.md", r)
  {
    PathJoin(PathJoin(SkillsDirPath(base), name), "SKILL.md")
  }

  /** A skill with a relative name is recorded under the base directory. */
  lemma SkillPathUnderBase(base: string, name: string)
    ensures base != [] && (name == [] || name[0] != '/') ==> IsPrefix(base, SkillPath(base, name))
  {
    if base != [] && (name == [] || name[0] != '/') {
      var dir := SkillsDirPath(base);
      var skill := PathJoin(dir, name);
      PathJoinKeepsBase(base, "skills");
      PathJoinKeepsBase(dir, name);
      PathJoinKeepsBase(skill, "SKILL.md");
      PrefixTransitive(base, dir, skill);
      PrefixTransitive(base, skill, SkillPath(base, name));
    }
  }

  function Summary(base: string, name: string, content: string): SkillSummary {
    SkillSummary(name, Description(content), SkillPath(base, name))
  }

  // ------------------------------------------------------------ collection

  /** The summaries gathered by the loop over the entries, in directory order. */
  function Collect(base: string, entries: seq<Entry>): Result<seq<SkillSummary>, SkillError>
    decreases |entries|
  {
    if entries == [] then Ok([])
    else
      match Collect(base, entries[..|entries| - 1])
      case Err(e) => Err(e)
      case Ok(acc) =>
        match entries[|entries| - 1]
        case FileEntry(_) => Ok(acc)
        case DirEntry(name, NoSkillFile) => Ok(acc)
        case DirEntry(name, Unreadable) => Err(ReadFailed(SkillPath(base, name)))
        case DirEntry(name, SkillText(c)) => Ok(acc + [Summary(base, name, c)])
  }

  predicate IsUnreadableSkill(e: Entry) {
    e.DirEntry? && e.skillFile.Unreadable?
  }

  predicate IsSkill(e: Entry) {
    e.DirEntry? && e.skillFile.SkillText?
  }

  /** The summaries of all readable skills, in directory order. */
  function Readable(base: string, entries: seq<Entry>): seq<SkillSummary>
    decreases |entries|
  {
    if entries == [] then []
    else
      var e := entries[|entries| - 1];
      Readable(base, entries[..|entries| - 1]) + (if IsSkill(e) then [Summary(base, e.name, e.skillFile.content)] else [])
  }

  /** No skill's SKILL.md is unreadable. */
  predicate AllReadable(entries: seq<Entry>) {
    forall i :: 0 <= i < |entries| ==> !IsUnreadableSkill(entries[i])
  }

  lemma AllReadableSnoc(entries: seq<Entry>)
    requires entries != []
    ensures AllReadable(entries) <==>
      AllReadable(entries[..|entries| - 1]) && !IsUnreadableSkill(entries[|entries| - 1])
  {
    var init := entries[..|entries| - 1];
    assert forall i :: 0 <= i < |init| ==> init[i] == entries[i];
  }

  /** The loop fails exactly when some skill file cannot be read, and otherwise gathers every readable skill. */
  lemma {:induction false} CollectExactly(base: string, entries: seq<Entry>)
    ensures Collect(base, entries).Ok? <==> AllReadable(entries)
    ensures Collect(base, entries).Ok? ==> Collect(base, entries).value == Readable(base, entries)
    decreases |entries|
  {
    if entries != [] {
      CollectExactly(base, entries[..|entries| - 1]);
      AllReadableSnoc(entries);
    }
  }

  /** Once the loop has failed, the remaining entries do not change the error. */
  lemma {:induction false} CollectErrSticks(base: string, entries: seq<Entry>, n: nat)
    requires n <= |entries|
    requires Collect(base, entries[..n]).Err?
    ensures Collect(base, entries) == Collect(base, entries[..n])
    decreases |entries| - n
  {
    if n < |entries| {
      assert entries[..n + 1][..n] == entries[..n];
      CollectErrSticks(base, entries, n + 1);
    } else {
      assert entries[..n] == entries;
    }
  }

  // ------------------------------------------------------------ sorting

  predicate SortedByName(s: seq<SkillSummary>) {
    forall i, j :: 0 <= i < j < |s| ==> LexLe(s[i].name, s[j].name)
  }

  /** Every name in `s` is at least `lo`. */
  predicate AllAtLeast(lo: string, s: seq<SkillSummary>) {
    forall k :: 0 <= k < |s| ==> LexLe(lo, s[k].name)
  }

  /** A sorted sequence is bounded below by its first name, and so is its tail. */
  lemma SortedHead(s: seq<SkillSummary>)
    requires s != [] && SortedByName(s)
    ensures AllAtLeast(s[0].name, s[1..]) && SortedByName(s[1..])
  {
    assert forall k :: 0 <= k < |s| - 1 ==> s[1..][k] == s[k + 1];
  }

  /** A name below a sorted sequence's first is below all of it. */
  lemma BelowHead(lo: string, s: seq<SkillSummary>)
    requires s != [] && SortedByName(s) && LexLe(lo, s[0].name)
    ensures AllAtLeast(lo, s)
  {
    forall k | 0 < k < |s| ensures LexLe(lo, s[k].name) {
      LexLeTransitive(lo, s[0].name, s[k].name);
    }
  }

  /** A lower bound of `s` and of `x` bounds any permutation of `s + [x]`. */
  lemma BoundKept(lo: string, s: seq<SkillSummary>, x: SkillSummary, r: seq<SkillSummary>)
    requires multiset(r) == multiset(s) + multiset{x}
    requires AllAtLeast(lo, s) && LexLe(lo, x.name)
    ensures AllAtLeast(lo, r)
  {
    forall k | 0 <= k < |r| ensures LexLe(lo, r[k].name) {
      assert r[k] in multiset(r);
      if r[k] != x {
        assert r[k] in multiset(s);
        var j :| 0 <= j < |s| && s[j] == r[k];
      }
    }
  }

  lemma SortedCons(h: SkillSummary, r: seq<SkillSummary>)
    requires SortedByName(r) && AllAtLeast(h.name, r)
    ensures SortedByName([h] + r)
  {
    var t := [h] + r;
    forall i, j | 0 <= i < j < |t| ensures LexLe(t[i].name, t[j].name) {
      assert t[j] == r[j - 1];
      if i > 0 {
        assert t[i] == r[i - 1];
      }
    }
  }

  /** Places `x` after every summary whose name is not greater than its own. */
  function InsertByName(s: seq<SkillSummary>, x: SkillSummary): (r: seq<SkillSummary>)
    requires SortedByName(s)
    ensures multiset(r) == multiset(s) + multiset{x}
    ensures SortedByName(r)
    decreases |s|
  {
    if s == [] then [x]
    else if LexLe(x.name, s[0].name) && x.name != s[0].name then
      BelowHead(x.name, s);
      SortedCons(x, s);
      [x] + s
    else
      LexLeTotal(x.name, s[0].name);
      SortedHead(s);
      assert s == [s[0]] + s[1..];
      var rest := InsertByName(s[1..], x);
      BoundKept(s[0].name, s[1..], x, rest);
      SortedCons(s[0], rest);
      [s[0]] + rest
  }

  /** `sort_by(|a, b| a.name.cmp(&b.name))`: sorted by name, a permutation of its input. */
  function SortByName(s: seq<SkillSummary>): (r: seq<SkillSummary>)
    ensures multiset(r) == multiset(s)
    ensures SortedByName(r)
    decreases |s|
  {
    if s == [] then []
    else
      assert s == s[..|s| - 1] + [s[|s| - 1]];
      InsertByName(SortByName(s[..|s| - 1]), s[|s| - 1])
  }

  // ------------------------------------------------------------ load_summaries

  /** The result of load_summaries. */
  function LoadSpec(base: string, dir: SkillsDir): Result<seq<SkillSummary>, SkillError> {
    match dir
    case Missing => Ok([])
    case Unlistable => Err(ListFailed)
    case Listed(entries) =>
      match Collect(base, entries)
      case Err(e) => Err(e)
      case Ok(found) => Ok(SortByName(found))
  }

  /** load_summaries over the skills directory found under `base`. */
  method LoadSummaries(base: string, dir: SkillsDir) returns (r: Result<seq<SkillSummary>, SkillError>)
    ensures r == LoadSpec(base, dir)
  {
    if dir.Missing? {
      return Ok([]);
    }
    if dir.Unlistable? {
      return Err(ListFailed);
    }
    var entries := dir.entries;
    var skills: seq<SkillSummary> := [];
    var i := 0;
    while i < |entries|
      invariant 0 <= i <= |entries|
      invariant Collect(base, entries[..i]) == Ok(skills)
    {
      assert entries[..i + 1][..i] == entries[..i];
      match entries[i] {
        case FileEntry(_) =>
        case DirEntry(name, file) =>
          match file {
            case NoSkillFile =>
            case Unreadable =>
              CollectErrSticks(base, entries, i + 1);
              return Err(ReadFailed(SkillPath(base, name)));
            case SkillText(content) =>
              skills := skills + [SkillSummary(name, Description(content), SkillPath(base, name))];
          }
      }
      i := i + 1;
    }
    assert entries[..i] == entries;
    r := Ok(SortByName(skills));
  }

  // ------------------------------------------------------------ properties

  /**
   * The summaries are exactly those of the readable skills, each once, sorted
   * by name; one unreadable SKILL.md fails the whole load.
   */
  lemma LoadSummariesExactly(base: string, entries: seq<Entry>)
    ensures LoadSpec(base, Listed(entries)).Ok? <==> forall i :: 0 <= i < |entries| ==> !IsUnreadableSkill(entries[i])
    ensures LoadSpec(base, Listed(entries)).Ok? ==>
      && multiset(LoadSpec(base, Listed(entries)).value) == multiset(Readable(base, entries))
      && SortedByName(LoadSpec(base, Listed(entries)).value)
  {
    CollectExactly(base, entries);
  }

  /** `s` is the summary of one of the readable skills among the entries. */
  ghost predicate SummaryOfSkill(base: string, entries: seq<Entry>, s: SkillSummary) {
    exists i :: 0 <= i < |entries| && IsSkill(entries[i]) && s == Summary(base, entries[i].name, entries[i].skillFile.content)
  }

  /** Each summary is that of a readable skill: its name, the description of its SKILL.md and the file's path. */
  lemma {:induction false} ReadableSummaries(base: string, entries: seq<Entry>)
    ensures forall s :: s in Readable(base, entries) ==> SummaryOfSkill(base, entries, s)
    decreases |entries|
  {
    if entries != [] {
      var n := |entries| - 1;
      var init := entries[..n];
      ReadableSummaries(base, init);
      forall s | s in Readable(base, entries) ensures SummaryOfSkill(base, entries, s) {
        if s in Readable(base, init) {
          var i :| 0 <= i < |init| && IsSkill(init[i]) && s == Summary(base, init[i].name, init[i].skillFile.content);
          assert init[i] == entries[i];
        } else {
          assert IsSkill(entries[n]) && s == Summary(base, entries[n].name, entries[n].skillFile.content);
        }
      }
    }
  }

  /** Every readable skill has its summary. */
  lemma {:induction false} ReadableIncludesSkills(base: string, entries: seq<Entry>, i: nat)
    requires i < |entries| && IsSkill(entries[i])
    ensures Summary(base, entries[i].name, entries[i].skillFile.content) in Readable(base, entries)
    decreases |entries|
  {
    var n := |entries| - 1;
    var init := entries[..n];
    if i < n {
      assert init[i] == entries[i];
      ReadableIncludesSkills(base, init, i);
      ReadableGrows(base, entries, Summary(base, entries[i].name, entries[i].skillFile.content));
    } else {
      assert i == n;
      assert IsSkill(entries[n]);
      assert Readable(base, entries) == Readable(base, init) + [Summary(base, entries[n].name, entries[n].skillFile.content)];
    }
  }

  /** Readable(entries[..n]) is a prefix of Readable(entries). */
  lemma ReadableGrows(base: string, entries: seq<Entry>, x: SkillSummary)
    requires entries != [] && x in Readable(base, entries[..|entries| - 1])
    ensures x in Readable(base, entries)
  {
  }

  /** Without a skills directory there are no skills, and that is not an error. */
  lemma MissingDirectoryIsEmpty(base: string)
    ensures LoadSpec(base, Missing) == Ok([])
  {
  }
}
