/**
 * The input of the report generator: themes, impact bullets (top ten and grouped by
 * theme), STAR stories and self-evaluation sections, each pointing at evidence
 * references. Optional strings are `Option<string>`; an optional list is a `seq`,
 * empty when absent (the generator treats a missing list and an empty one alike).
 */
module Report {
  import opened JsText

  datatype EvidenceRef = EvidenceRef(id: Option<string>, title: Option<string>, url: Option<string>)

  datatype Theme = Theme(
    themeId: Option<string>,
    themeName: Option<string>,
    oneLiner: Option<string>,
    whyItMatters: Option<string>,
    confidence: Option<string>,
    notes: Option<string>,
    anchorEvidence: seq<EvidenceRef>)

  datatype Bullet = Bullet(text: Option<string>, evidence: seq<EvidenceRef>, themeId: Option<string>)

  /** One entry of `bullets_by_theme`. */
  datatype BulletGroup = BulletGroup(themeId: Option<string>, bullets: seq<Bullet>)

  datatype Story = Story(
    title: Option<string>,
    situation: Option<string>,
    task: Option<string>,
    actions: seq<string>,
    results: seq<string>,
    evidence: seq<EvidenceRef>,
    confidence: Option<string>,
    themeId: Option<string>)

  /** A free-text self-evaluation section (summary, how I worked, growth). */
  datatype Section = Section(text: Option<string>, evidence: seq<EvidenceRef>)

  /** `self_eval.sections`; a missing section object is None. */
  datatype SelfEval = SelfEval(
    summary: Option<Section>,
    keyAccomplishments: seq<Bullet>,
    howIWorked: Option<Section>,
    growth: Option<Section>,
    nextYearGoals: seq<Bullet>)

  datatype ReportInput = ReportInput(
    themes: seq<Theme>,
    top10: seq<Bullet>,
    byTheme: seq<BulletGroup>,
    stories: seq<Story>,
    sections: SelfEval)

  datatype Timeframe = Timeframe(startDate: Option<string>, endDate: Option<string>)

  const NoSections := SelfEval(None, [], None, None, [])
  const EmptyInput := ReportInput([], [], [], [], NoSections)
  const NoTimeframe := Timeframe(None, None)

  /** The lines that open every top-level section: a rule, a blank line, the heading, a blank line. */
  function SectionHead(heading: string): seq<string> {
    ["---", "", heading, ""]
  }

  // ---------------------------------------------------------------------------
  // Links to evidence

  /** The label `evidenceLinks` gives a reference: `id || title || "ref"`. */
  function RefLabel(e: EvidenceRef): (text: string)
    ensures text != ""
    ensures Truthy(e.id) ==> text == e.id.value
    ensures !Truthy(e.id) && Truthy(e.title) ==> text == e.title.value
    ensures !Truthy(e.id) && !Truthy(e.title) ==> text == "ref"
  {
    Or(Or(e.id, e.title), Some("ref")).value
  }

  /** `[name](url)`, with an absent url rendered as "undefined". */
  function Link(name: string, url: Option<string>): string {
    "[" + name + "](" + Interp(url) + ")"
  }

  /** `evidenceLinks(evidence)`: the links joined with ", ", or "" for none. */
  function EvidenceLinks(ev: seq<EvidenceRef>): (s: string)
    ensures ev == [] <==> s == ""
  {
    var r := Join(seq(|ev|, i requires 0 <= i < |ev| => Link(RefLabel(ev[i]), ev[i].url)), ", ");
    if ev == [] then "" else
      assert r != "" by { JoinStartsWithFirst(seq(|ev|, i requires 0 <= i < |ev| => Link(RefLabel(ev[i]), ev[i].url)), ", "); }
      r
  }

  /** The joined string begins with the first part. */
  lemma {:induction false} JoinStartsWithFirst(parts: seq<string>, sep: string)
    requires parts != []
    ensures |Join(parts, sep)| >= |parts[0]| && Join(parts, sep)[..|parts[0]|] == parts[0]
  {
    if |parts| >= 2 {
      JoinCons(parts, sep);
    }
  }

  /** A single reference renders as one link with its label. */
  lemma OneEvidenceLink(e: EvidenceRef)
    ensures EvidenceLinks([e]) == "[" + RefLabel(e) + "](" + Interp(e.url) + ")"
  {
    assert seq(1, i requires 0 <= i < 1 => Link(RefLabel([e][i]), [e][i].url)) == [Link(RefLabel(e), e.url)];
  }

  /** The label of the theme and story evidence lists: `title || id`, "undefined" if neither. */
  function TitleLabel(e: EvidenceRef): (text: string)
    ensures Truthy(e.title) ==> text == e.title.value
    ensures !Truthy(e.title) ==> text == Interp(e.id)
  {
    Interp(Or(e.title, e.id))
  }

  /** `evidence.map((e) => `[${e.title || e.id}](${e.url})`).join(", ")`. */
  function TitleLinks(ev: seq<EvidenceRef>): string {
    Join(seq(|ev|, i requires 0 <= i < |ev| => Link(TitleLabel(ev[i]), ev[i].url)), ", ")
  }
}
