/**
 * `generateMarkdown`: the report as a list of lines joined with "\n". The header
 * comes first, then Summary, Themes, Impact Bullets, STAR Stories, Self-Evaluation
 * and the Evidence Appendix, each present only when its guard holds. The functions
 * below give the lines of each part; `GenerateMarkdown` pushes them the way the
 * generator does and is proved to produce `Markdown`.
 */
module Markdown {
  import opened JsText
  import opened Report
  import opened Appendix

  const ReportTitle := "# Annual Review Report"

  // ---------------------------------------------------------------------------
  // The parts of the report

  /** `*start – end*`, with an en dash between the dates. */
  function TimeframeLine(start: string, end: string): (line: string)
    ensures line != "" && line[0] == '*'
  {
    "*" + start + " \U{2013} " + end + "*"
  }

  function HeaderLines(tf: Timeframe): seq<string> {
    if Truthy(tf.startDate) && Truthy(tf.endDate) then
      [ReportTitle, TimeframeLine(tf.startDate.value, tf.endDate.value), ""]
    else [ReportTitle, ""]
  }

  /** A blank line and `*Sources: …*` after a free-text section with evidence. */
  function SourcesLines(ev: seq<EvidenceRef>): seq<string> {
    if ev == [] then [] else ["", "*Sources: " + EvidenceLinks(ev) + "*"]
  }

  function SummaryLines(summary: Option<Section>): seq<string> {
    if summary.Some? && Truthy(summary.value.text) then
      SectionHead("## Summary") + [summary.value.text.value] + SourcesLines(summary.value.evidence) + [""]
    else []
  }

  /** A blank line and `prefix value suffix`, for a truthy optional field only. */
  function OptLine(o: Option<string>, prefix: string, suffix: string): seq<string> {
    if Truthy(o) then ["", prefix + o.value + suffix] else []
  }

  /** A blank line and `*Evidence: …*` with title links, for a non-empty list only. */
  function EvidenceLine(ev: seq<EvidenceRef>): seq<string> {
    if ev == [] then [] else ["", "*Evidence: " + TitleLinks(ev) + "*"]
  }

  /** `### ${i + 1}. ${t.theme_name}` for the theme at position `i`. */
  function ThemeHeading(i: nat, t: Theme): string {
    "### " + NatToString(i + 1) + ". " + Interp(t.themeName)
  }

  function ThemeBlock(i: nat, t: Theme): seq<string> {
    [ThemeHeading(i, t)]
    + OptLine(t.oneLiner, "> ", "") + OptLine(t.whyItMatters, "**Why it matters:** ", "")
    + OptLine(t.confidence, "*Confidence: ", "*") + OptLine(t.notes, "*Notes: ", "*")
    + EvidenceLine(t.anchorEvidence) + [""]
  }

  function ThemeBlocks(ts: seq<Theme>): seq<string> {
    if ts == [] then [] else ThemeBlocks(ts[..|ts| - 1]) + ThemeBlock(|ts| - 1, ts[|ts| - 1])
  }

  function ThemesLines(ts: seq<Theme>): seq<string> {
    if ts == [] then [] else SectionHead("## Themes") + ThemeBlocks(ts)
  }

  /** `- ${b.text}`, followed by ` (links)` when the bullet has evidence. */
  function BulletLine(b: Bullet): string {
    "- " + Interp(b.text) + (if b.evidence == [] then "" else " (" + EvidenceLinks(b.evidence) + ")")
  }

  function BulletLines(bs: seq<Bullet>): seq<string> {
    if bs == [] then [] else BulletLines(bs[..|bs| - 1]) + [BulletLine(bs[|bs| - 1])]
  }

  /**
   * `themeNameMap`: `${theme_id}` to `theme_name`, a later theme overwriting an earlier
   * one with the same key (an absent id has the key "undefined").
   */
  function NameMap(ts: seq<Theme>): map<string, Option<string>> {
    if ts == [] then map[]
    else NameMap(ts[..|ts| - 1])[Interp(ts[|ts| - 1].themeId) := ts[|ts| - 1].themeName]
  }

  /** Every theme's key is in the map, and every key comes from a theme. */
  lemma {:induction false} NameMapKeys(ts: seq<Theme>)
    ensures forall j :: 0 <= j < |ts| ==> Interp(ts[j].themeId) in NameMap(ts)
    ensures forall k :: k in NameMap(ts) ==> exists j :: 0 <= j < |ts| && Interp(ts[j].themeId) == k
  {
    if ts != [] {
      var init := ts[..|ts| - 1];
      var kt := Interp(ts[|ts| - 1].themeId);
      NameMapKeys(init);
      forall j | 0 <= j < |init| ensures Interp(ts[j].themeId) in NameMap(ts) {
        assert init[j] == ts[j];
      }
      forall k | k in NameMap(ts) && k != kt ensures exists j :: 0 <= j < |ts| && Interp(ts[j].themeId) == k {
        var j :| 0 <= j < |init| && Interp(init[j].themeId) == k;
        assert init[j] == ts[j];
      }
    }
  }

  /** A key holds the name of the last theme with that key. */
  lemma {:induction false} NameMapLastWins(ts: seq<Theme>, j: nat)
    requires j < |ts|
    requires forall j' :: j < j' < |ts| ==> Interp(ts[j'].themeId) != Interp(ts[j].themeId)
    ensures Interp(ts[j].themeId) in NameMap(ts) && NameMap(ts)[Interp(ts[j].themeId)] == ts[j].themeName
  {
    var init := ts[..|ts| - 1];
    if j < |init| {
      assert init[j] == ts[j];
      forall j' | j < j' < |init| ensures Interp(init[j'].themeId) != Interp(init[j].themeId) {
        assert init[j'] == ts[j'];
      }
      NameMapLastWins(init, j);
    }
  }

  /** `themeNameMap[k]`, undefined for a missing key. */
  function Lookup(m: map<string, Option<string>>, k: string): Option<string> {
    if k in m then m[k] else None
  }

  /** `### ${themeNameMap[bt.theme_id ?? ""] || bt.theme_id}`. */
  function GroupHeading(m: map<string, Option<string>>, bt: BulletGroup): string {
    "### " + Interp(Or(Lookup(m, bt.themeId.GetOr("")), bt.themeId))
  }

  function ByThemeBlock(m: map<string, Option<string>>, bt: BulletGroup): seq<string> {
    [GroupHeading(m, bt), ""] + BulletLines(bt.bullets) + [""]
  }

  function ByThemeBlocks(m: map<string, Option<string>>, bts: seq<BulletGroup>): seq<string> {
    if bts == [] then [] else ByThemeBlocks(m, bts[..|bts| - 1]) + ByThemeBlock(m, bts[|bts| - 1])
  }

  /** A sub-list of bullets under its own heading, or nothing when empty. */
  function SubList(heading: string, bs: seq<Bullet>): seq<string> {
    if bs == [] then [] else [heading, ""] + BulletLines(bs) + [""]
  }

  function BulletsLines(ts: seq<Theme>, top10: seq<Bullet>, byTheme: seq<BulletGroup>): seq<string> {
    if top10 == [] && byTheme == [] then []
    else
      SectionHead("## Impact Bullets") + SubList("### Top 10 Bullets", top10)
      + (if byTheme == [] then [] else ByThemeBlocks(NameMap(ts), byTheme))
  }

  function Items(xs: seq<string>): seq<string> {
    if xs == [] then [] else Items(xs[..|xs| - 1]) + ["- " + xs[|xs| - 1]]
  }

  /** A blank line, a bold label and the items, or nothing when the list is empty. */
  function ListLines(heading: string, xs: seq<string>): seq<string> {
    if xs == [] then [] else ["", heading] + Items(xs)
  }

  /** The story heading and its situation and task lines. */
  function StoryOpening(s: Story): seq<string> {
    ["### " + Interp(s.title)] + OptLine(s.situation, "**Situation:** ", "") + OptLine(s.task, "**Task:** ", "")
  }

  /** The story's evidence and confidence lines and the closing blank line. */
  function StoryClosing(s: Story): seq<string> {
    EvidenceLine(s.evidence) + OptLine(s.confidence, "*Confidence: ", "*") + [""]
  }

  function StoryBlock(s: Story): seq<string> {
    StoryOpening(s) + ListLines("**Actions:**", s.actions) + ListLines("**Results:**", s.results) + StoryClosing(s)
  }

  function StoryBlocks(ss: seq<Story>): seq<string> {
    if ss == [] then [] else StoryBlocks(ss[..|ss| - 1]) + StoryBlock(ss[|ss| - 1])
  }

  function StoriesLines(ss: seq<Story>): seq<string> {
    if ss == [] then [] else SectionHead("## STAR Stories") + StoryBlocks(ss)
  }

  /** `hasAnySection`: a section object is truthy whatever it holds. */
  predicate HasAnySection(sec: SelfEval) {
    sec.summary.Some? || sec.keyAccomplishments != [] || sec.howIWorked.Some?
    || sec.growth.Some? || sec.nextYearGoals != []
  }

  /** A free-text subsection: heading, blank line, text, sources, blank line. */
  function FreeSection(heading: string, s: Option<Section>): seq<string> {
    if s.Some? && Truthy(s.value.text) then
      [heading, "", s.value.text.value] + SourcesLines(s.value.evidence) + [""]
    else []
  }

  function SelfEvalLines(sec: SelfEval): seq<string> {
    if HasAnySection(sec) then
      SectionHead("## Self-Evaluation") + SubList("### Key Accomplishments", sec.keyAccomplishments)
      + FreeSection("### How I Worked", sec.howIWorked) + FreeSection("### Growth", sec.growth)
      + SubList("### Next Year Goals", sec.nextYearGoals)
    else []
  }

  /**
   * Everything after the header, in the fixed order Summary, Themes, Impact Bullets,
   * STAR Stories, Self-Evaluation, Evidence Appendix.
   */
  function BodyLines(inp: ReportInput): seq<string> {
    SummaryLines(inp.sections.summary) + ThemesLines(inp.themes)
    + BulletsLines(inp.themes, inp.top10, inp.byTheme) + StoriesLines(inp.stories)
    + SelfEvalLines(inp.sections) + ReportAppendix(inp)
  }

  function ReportLines(inp: ReportInput, tf: Timeframe): seq<string> {
    HeaderLines(tf) + BodyLines(inp)
  }

  /** `lines.join("\n")`. */
  function Markdown(inp: ReportInput, tf: Timeframe): string {
    Join(ReportLines(inp, tf), "\n")
  }

  // ---------------------------------------------------------------------------
  // Properties of the report

  /** The report always starts with its title line. */
  lemma ReportStartsWithTitle(inp: ReportInput, tf: Timeframe)
    ensures ReportLines(inp, tf)[0] == ReportTitle
    ensures |Markdown(inp, tf)| > |ReportTitle|
    ensures Markdown(inp, tf)[..|ReportTitle| + 1] == ReportTitle + "\n"
  {
    var h := HeaderLines(tf);
    var ls := h + BodyLines(inp);
    assert ls[0] == h[0] == ReportTitle && ls[1] == h[1];
    FirstLineOfJoin(ls);
  }

  /** Lines joined with newlines start with the first line and its newline. */
  lemma FirstLineOfJoin(ls: seq<string>)
    requires |ls| >= 2
    ensures |Join(ls, "\n")| > |ls[0]| && Join(ls, "\n")[..|ls[0]| + 1] == ls[0] + "\n"
  {
    JoinCons(ls, "\n");
  }

  /**
   * The second line is the date range when both dates are non-empty, and the blank
   * line after the title otherwise.
   */
  lemma TimeframeLineIff(inp: ReportInput, tf: Timeframe)
    ensures ReportLines(inp, tf)[1] != "" <==> Truthy(tf.startDate) && Truthy(tf.endDate)
    ensures Truthy(tf.startDate) && Truthy(tf.endDate) ==>
      ReportLines(inp, tf)[1] == TimeframeLine(tf.startDate.value, tf.endDate.value)
  {
    assert ReportLines(inp, tf)[1] == HeaderLines(tf)[1];
  }

  /** An input with nothing in it renders the header only. */
  lemma EmptyInputRendersHeader(tf: Timeframe)
    ensures ReportLines(EmptyInput, tf) == HeaderLines(tf)
    ensures "---" !in ReportLines(EmptyInput, tf)
    ensures Truthy(tf.startDate) && Truthy(tf.endDate) ==>
      Markdown(EmptyInput, tf) == ReportTitle + "\n" + TimeframeLine(tf.startDate.value, tf.endDate.value) + "\n"
    ensures !(Truthy(tf.startDate) && Truthy(tf.endDate)) ==> Markdown(EmptyInput, tf) == ReportTitle + "\n"
  {
    EmptyInputHasNoBody();
    assert ReportLines(EmptyInput, tf) == HeaderLines(tf) + [];
    HeaderText(tf);
  }

  lemma EmptyInputHasNoBody()
    ensures BodyLines(EmptyInput) == []
  {
    assert AllCalls(EmptyInput) == [];
    assert AllVisits(EmptyInput) == [];
    assert !HasAnyEvidence(FinalState(EmptyInput).groups) by {
      InitialGroupsEmpty(EmptyInput.themes);
    }
  }

  /** The header lines joined: the title, the timeframe line when both dates are given, a final newline. */
  lemma HeaderText(tf: Timeframe)
    ensures "---" !in HeaderLines(tf)
    ensures Truthy(tf.startDate) && Truthy(tf.endDate) ==>
      Join(HeaderLines(tf), "\n") == ReportTitle + "\n" + TimeframeLine(tf.startDate.value, tf.endDate.value) + "\n"
    ensures !(Truthy(tf.startDate) && Truthy(tf.endDate)) ==> Join(HeaderLines(tf), "\n") == ReportTitle + "\n"
  {
    var h := HeaderLines(tf);
    if Truthy(tf.startDate) && Truthy(tf.endDate) {
      var t := TimeframeLine(tf.startDate.value, tf.endDate.value);
      assert h == [ReportTitle, t] + [""];
      assert [ReportTitle, t] == [ReportTitle] + [t];
      JoinSnoc([ReportTitle], t, "\n");
      JoinSnoc([ReportTitle, t], "", "\n");
      assert t != "---" by { assert t[0] == '*'; }
    } else {
      assert h == [ReportTitle] + [""];
      JoinSnoc([ReportTitle], "", "\n");
    }
  }

  /** A part that is there opens with the rule and heading of its section. */
  predicate Opens(ls: seq<string>, heading: string) {
    |ls| >= 4 && ls[..4] == SectionHead(heading)
  }

  lemma SummaryGuard(summary: Option<Section>)
    ensures SummaryLines(summary) != [] <==> summary.Some? && Truthy(summary.value.text)
    ensures SummaryLines(summary) != [] ==>
      Opens(SummaryLines(summary), "## Summary") && SummaryLines(summary)[4] == summary.value.text.value
  {
  }

  lemma ThemesGuard(ts: seq<Theme>)
    ensures ThemesLines(ts) != [] <==> ts != []
    ensures ts != [] ==> Opens(ThemesLines(ts), "## Themes")
  {
  }

  lemma BulletsGuard(ts: seq<Theme>, top10: seq<Bullet>, byTheme: seq<BulletGroup>)
    ensures BulletsLines(ts, top10, byTheme) != [] <==> top10 != [] || byTheme != []
    ensures top10 != [] || byTheme != [] ==> Opens(BulletsLines(ts, top10, byTheme), "## Impact Bullets")
  {
  }

  lemma StoriesGuard(ss: seq<Story>)
    ensures StoriesLines(ss) != [] <==> ss != []
    ensures ss != [] ==> Opens(StoriesLines(ss), "## STAR Stories")
  {
  }

  lemma SelfEvalGuard(sec: SelfEval)
    ensures SelfEvalLines(sec) != [] <==> HasAnySection(sec)
    ensures HasAnySection(sec) ==> Opens(SelfEvalLines(sec), "## Self-Evaluation")
  {
  }

  /**
   * A summary alone still makes the Self-Evaluation heading appear, with nothing
   * under it.
   */
  lemma SummaryOnlySelfEvaluation(s: Section)
    ensures SelfEvalLines(SelfEval(Some(s), [], None, None, [])) == SectionHead("## Self-Evaluation")
  {
  }

  /**
   * Each of the six parts after the header is empty exactly when its guard fails.
   */
  lemma SectionsFollowGuards(inp: ReportInput)
    ensures SummaryLines(inp.sections.summary) != [] <==>
      inp.sections.summary.Some? && Truthy(inp.sections.summary.value.text)
    ensures ThemesLines(inp.themes) != [] <==> inp.themes != []
    ensures BulletsLines(inp.themes, inp.top10, inp.byTheme) != [] <==> inp.top10 != [] || inp.byTheme != []
    ensures StoriesLines(inp.stories) != [] <==> inp.stories != []
    ensures SelfEvalLines(inp.sections) != [] <==> HasAnySection(inp.sections)
    ensures ReportAppendix(inp) != [] <==> AnyKeyedEvidence(inp)
  {
    SummaryGuard(inp.sections.summary);
    SelfEvalGuard(inp.sections);
    AppendixPresentIff(inp);
  }

  /** Past the `### ` of a theme heading: the number, the dot, then the name. */
  lemma HeadingAfterHashes(number: string, name: string)
    ensures ("### " + number + ". " + name)[4..] == number + ['.'] + (" " + name)
  {
    var h := "### " + number + ". " + name;
    AppendAssoc("### " + number, ". ", name);
    AppendAssoc("### ", number, ". " + name);
    assert h == "### " + (number + (". " + name));
    assert ". " + name == ['.'] + (" " + name);
    AppendAssoc(number, ['.'], " " + name);
  }

  /** Themes are numbered by position, so two themes never share a heading. */
  lemma ThemeHeadingsDistinct(i: nat, j: nat, a: Theme, b: Theme)
    requires i != j
    ensures ThemeHeading(i, a) != ThemeHeading(j, b)
  {
    if ThemeHeading(i, a) == ThemeHeading(j, b) {
      HeadingNumberDetermined(NatToString(i + 1), NatToString(j + 1), Interp(a.themeName), Interp(b.themeName));
      NatToStringInjective(i + 1, j + 1);
    }
  }

  /** Two headings `### <digits>. <name>` that are equal carry the same number. */
  lemma HeadingNumberDetermined(x: string, y: string, na: string, nb: string)
    requires forall k :: 0 <= k < |x| ==> '0' <= x[k] <= '9'
    requires forall k :: 0 <= k < |y| ==> '0' <= y[k] <= '9'
    requires "### " + x + ". " + na == "### " + y + ". " + nb
    ensures x == y
  {
    HeadingAfterHashes(x, na);
    HeadingAfterHashes(y, nb);
    DigitsBeforeSeparator(x, y, '.', " " + na, " " + nb);
  }

  /** Every theme's numbered heading is among the theme lines. */
  lemma {:induction false} ThemeHeadingsShown(ts: seq<Theme>)
    ensures forall i :: 0 <= i < |ts| ==> ThemeHeading(i, ts[i]) in ThemeBlocks(ts)
  {
    if ts != [] {
      var init := ts[..|ts| - 1];
      var last := ThemeBlock(|ts| - 1, ts[|ts| - 1]);
      ThemeHeadingsShown(init);
      forall i | 0 <= i < |ts| ensures ThemeHeading(i, ts[i]) in ThemeBlocks(ts) {
        if i < |init| {
          assert init[i] == ts[i];
          InAppend(ThemeHeading(i, ts[i]), ThemeBlocks(init), last);
        } else {
          assert last[0] == ThemeHeading(i, ts[i]);
          InAppend(ThemeHeading(i, ts[i]), ThemeBlocks(init), last);
        }
      }
    }
  }

  /**
   * The heading of a `bullets_by_theme` entry: the name of the last theme whose
   * `${theme_id}` is the entry's `theme_id ?? ""`, when that name is non-empty, and
   * the entry's own id otherwise ("undefined" when it has none).
   */
  lemma GroupHeadingOf(ts: seq<Theme>, bt: BulletGroup)
    ensures var k := bt.themeId.GetOr("");
      && ((forall j :: 0 <= j < |ts| ==> Interp(ts[j].themeId) != k) ==>
            GroupHeading(NameMap(ts), bt) == "### " + Interp(bt.themeId))
      && (forall j :: (0 <= j < |ts| && Interp(ts[j].themeId) == k &&
                       (forall j' :: j < j' < |ts| ==> Interp(ts[j'].themeId) != k)) ==>
            GroupHeading(NameMap(ts), bt) ==
              "### " + (if Truthy(ts[j].themeName) then ts[j].themeName.value else Interp(bt.themeId)))
  {
    NameMapKeys(ts);
    var k := bt.themeId.GetOr("");
    forall j | 0 <= j < |ts| && Interp(ts[j].themeId) == k &&
      (forall j' :: j < j' < |ts| ==> Interp(ts[j'].themeId) != k)
      ensures Lookup(NameMap(ts), k) == ts[j].themeName
    {
      NameMapLastWins(ts, j);
    }
  }

  // ---------------------------------------------------------------------------
  // generateMarkdown, pushing lines

  method PushBullets(lines: seq<string>, bs: seq<Bullet>) returns (out: seq<string>)
    ensures out == lines + BulletLines(bs)
  {
    out := lines;
    for i := 0 to |bs|
      invariant out == lines + BulletLines(bs[..i])
    {
      assert bs[..i + 1][..i] == bs[..i];
      out := out + [BulletLine(bs[i])];
    }
    assert bs[..|bs|] == bs;
  }

  method PushSubList(lines: seq<string>, heading: string, bs: seq<Bullet>) returns (out: seq<string>)
    ensures out == lines + SubList(heading, bs)
  {
    if bs == [] {
      return lines;
    }
    out := PushBullets(lines + [heading, ""], bs);
    out := out + [""];
    AppendAssoc(lines, [heading, ""], BulletLines(bs));
    AppendAssoc(lines, [heading, ""] + BulletLines(bs), [""]);
  }

  method PushItems(lines: seq<string>, xs: seq<string>) returns (out: seq<string>)
    ensures out == lines + Items(xs)
  {
    out := lines;
    for i := 0 to |xs|
      invariant out == lines + Items(xs[..i])
    {
      assert xs[..i + 1][..i] == xs[..i];
      out := out + ["- " + xs[i]];
    }
    assert xs[..|xs|] == xs;
  }

  method PushSummary(lines: seq<string>, summary: Option<Section>) returns (out: seq<string>)
    ensures out == lines + SummaryLines(summary)
  {
    if !(summary.Some? && Truthy(summary.value.text)) {
      return lines;
    }
    var s := summary.value;
    out := lines + (SectionHead("## Summary") + [s.text.value] + SourcesLines(s.evidence) + [""]);
  }

  method PushThemeBlocks(lines: seq<string>, ts: seq<Theme>) returns (out: seq<string>)
    ensures out == lines + ThemeBlocks(ts)
  {
    out := lines;
    for i := 0 to |ts|
      invariant out == lines + ThemeBlocks(ts[..i])
    {
      assert ts[..i + 1][..i] == ts[..i];
      AppendAssoc(lines, ThemeBlocks(ts[..i]), ThemeBlock(i, ts[i]));
      out := out + ThemeBlock(i, ts[i]);
    }
    assert ts[..|ts|] == ts;
  }

  /** The themes section: its heading, then `themeList.forEach` with the 1-based index. */
  method PushThemes(lines: seq<string>, ts: seq<Theme>) returns (out: seq<string>)
    ensures out == lines + ThemesLines(ts)
  {
    if ts == [] {
      return lines;
    }
    out := PushThemeBlocks(lines + SectionHead("## Themes"), ts);
    AppendAssoc(lines, SectionHead("## Themes"), ThemeBlocks(ts));
  }

  /** `Object.fromEntries(themeList.map((t) => [t.theme_id, t.theme_name]))`. */
  method BuildNameMap(ts: seq<Theme>) returns (m: map<string, Option<string>>)
    ensures m == NameMap(ts)
  {
    m := map[];
    for i := 0 to |ts|
      invariant m == NameMap(ts[..i])
    {
      assert ts[..i + 1][..i] == ts[..i];
      m := m[Interp(ts[i].themeId) := ts[i].themeName];
    }
    assert ts[..|ts|] == ts;
  }

  method PushByThemeBlock(lines: seq<string>, m: map<string, Option<string>>, bt: BulletGroup)
    returns (out: seq<string>)
    ensures out == lines + ByThemeBlock(m, bt)
  {
    var head := [GroupHeading(m, bt), ""];
    out := PushBullets(lines + head, bt.bullets);
    out := out + [""];
    AppendAssoc(lines, head, BulletLines(bt.bullets));
    AppendAssoc(lines, head + BulletLines(bt.bullets), [""]);
  }

  lemma ByThemeBlocksSnoc(m: map<string, Option<string>>, bts: seq<BulletGroup>, i: nat)
    requires i < |bts|
    ensures ByThemeBlocks(m, bts[..i + 1]) == ByThemeBlocks(m, bts[..i]) + ByThemeBlock(m, bts[i])
  {
    assert bts[..i + 1][..i] == bts[..i];
  }

  method PushGroupedBullets(lines: seq<string>, m: map<string, Option<string>>, bts: seq<BulletGroup>)
    returns (out: seq<string>)
    ensures out == lines + ByThemeBlocks(m, bts)
  {
    out := lines;
    for i := 0 to |bts|
      invariant out == lines + ByThemeBlocks(m, bts[..i])
    {
      ByThemeBlocksSnoc(m, bts, i);
      AppendAssoc(lines, ByThemeBlocks(m, bts[..i]), ByThemeBlock(m, bts[i]));
      out := PushByThemeBlock(out, m, bts[i]);
    }
    assert bts[..|bts|] == bts;
  }

  method PushImpactBullets(lines: seq<string>, ts: seq<Theme>, top10: seq<Bullet>, byTheme: seq<BulletGroup>)
    returns (out: seq<string>)
    ensures out == lines + BulletsLines(ts, top10, byTheme)
  {
    if top10 == [] && byTheme == [] {
      return lines;
    }
    var head := SectionHead("## Impact Bullets");
    out := PushSubList(lines + head, "### Top 10 Bullets", top10);
    AppendAssoc(lines, head, SubList("### Top 10 Bullets", top10));
    ghost var top := head + SubList("### Top 10 Bullets", top10);
    if byTheme != [] {
      var m := BuildNameMap(ts);
      out := PushGroupedBullets(out, m, byTheme);
      AppendAssoc(lines, top, ByThemeBlocks(m, byTheme));
    } else {
      assert top + [] == top;
    }
  }

  method PushList(lines: seq<string>, heading: string, xs: seq<string>) returns (out: seq<string>)
    ensures out == lines + ListLines(heading, xs)
  {
    if xs == [] {
      return lines;
    }
    out := PushItems(lines + ["", heading], xs);
    AppendAssoc(lines, ["", heading], Items(xs));
  }

  method PushStory(lines: seq<string>, s: Story) returns (out: seq<string>)
    ensures out == lines + StoryBlock(s)
  {
    var a := StoryOpening(s);
    var b := ListLines("**Actions:**", s.actions);
    var c := ListLines("**Results:**", s.results);
    var d := StoryClosing(s);
    out := lines + a;
    out := PushList(out, "**Actions:**", s.actions);
    out := PushList(out, "**Results:**", s.results);
    out := out + d;
    AppendAssoc(lines, a, b);
    AppendAssoc(lines, a + b, c);
    AppendAssoc(lines, a + b + c, d);
  }

  lemma StoryBlocksSnoc(ss: seq<Story>, i: nat)
    requires i < |ss|
    ensures StoryBlocks(ss[..i + 1]) == StoryBlocks(ss[..i]) + StoryBlock(ss[i])
  {
    assert ss[..i + 1][..i] == ss[..i];
  }

  method PushStoryBlocks(lines: seq<string>, ss: seq<Story>) returns (out: seq<string>)
    ensures out == lines + StoryBlocks(ss)
  {
    out := lines;
    for i := 0 to |ss|
      invariant out == lines + StoryBlocks(ss[..i])
    {
      StoryBlocksSnoc(ss, i);
      AppendAssoc(lines, StoryBlocks(ss[..i]), StoryBlock(ss[i]));
      out := PushStory(out, ss[i]);
    }
    assert ss[..|ss|] == ss;
  }

  method PushStories(lines: seq<string>, ss: seq<Story>) returns (out: seq<string>)
    ensures out == lines + StoriesLines(ss)
  {
    if ss == [] {
      return lines;
    }
    out := PushStoryBlocks(lines + SectionHead("## STAR Stories"), ss);
    AppendAssoc(lines, SectionHead("## STAR Stories"), StoryBlocks(ss));
  }

  method PushFreeSection(lines: seq<string>, heading: string, s: Option<Section>) returns (out: seq<string>)
    ensures out == lines + FreeSection(heading, s)
  {
    if !(s.Some? && Truthy(s.value.text)) {
      return lines;
    }
    out := lines + ([heading, "", s.value.text.value] + SourcesLines(s.value.evidence) + [""]);
  }

  method PushSelfEvaluation(lines: seq<string>, sec: SelfEval) returns (out: seq<string>)
    ensures out == lines + SelfEvalLines(sec)
  {
    if !HasAnySection(sec) {
      return lines;
    }
    var a := SectionHead("## Self-Evaluation");
    var b := SubList("### Key Accomplishments", sec.keyAccomplishments);
    var c := FreeSection("### How I Worked", sec.howIWorked);
    var d := FreeSection("### Growth", sec.growth);
    var e := SubList("### Next Year Goals", sec.nextYearGoals);
    out := PushSubList(lines + a, "### Key Accomplishments", sec.keyAccomplishments);
    out := PushFreeSection(out, "### How I Worked", sec.howIWorked);
    out := PushFreeSection(out, "### Growth", sec.growth);
    out := PushSubList(out, "### Next Year Goals", sec.nextYearGoals);
    AppendAssoc(lines, a, b);
    AppendAssoc(lines, a + b, c);
    AppendAssoc(lines, a + b + c, d);
    AppendAssoc(lines, a + b + c + d, e);
  }

  /** `generateMarkdown(input, { timeframe })`. */
  method GenerateMarkdown(inp: ReportInput, tf: Timeframe) returns (md: string)
    ensures md == Markdown(inp, tf)
  {
    var h := HeaderLines(tf);
    var lines := h;
    lines := PushSummary(lines, inp.sections.summary);
    lines := PushThemes(lines, inp.themes);
    lines := PushImpactBullets(lines, inp.themes, inp.top10, inp.byTheme);
    lines := PushStories(lines, inp.stories);
    lines := PushSelfEvaluation(lines, inp.sections);
    var st := CollectEvidence(inp);
    lines := PushAppendix(lines, st.groups);
    ghost var a := SummaryLines(inp.sections.summary);
    ghost var b := ThemesLines(inp.themes);
    ghost var c := BulletsLines(inp.themes, inp.top10, inp.byTheme);
    ghost var d := StoriesLines(inp.stories);
    ghost var e := SelfEvalLines(inp.sections);
    ghost var f := ReportAppendix(inp);
    AppendAssoc(h, a, b);
    AppendAssoc(h, a + b, c);
    AppendAssoc(h, a + b + c, d);
    AppendAssoc(h, a + b + c + d, e);
    AppendAssoc(h, a + b + c + d + e, f);
    md := Join(lines, "\n");
  }
}
