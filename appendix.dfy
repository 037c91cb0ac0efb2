/**
 * The Evidence Appendix of the report: groups built upfront (one per theme with an
 * id, in theme order, then "General"), every evidence reference offered to a group by
 * `addToGroup` in a fixed traversal order, and a reference kept only the first time
 * its key `url || id` is seen. A group is addressed by its position in the group
 * list; the id-to-group map holds positions (for a repeated id, the last one).
 */
module Appendix {
  import opened JsText
  import opened Report

  const GeneralId := "__general__"
  const GeneralName := "General"

  /** A group of the appendix: its id, its heading and the references placed in it. */
  datatype Group = Group(id: string, name: string, refs: seq<EvidenceRef>)

  /** The group a theme with an id gets: named `theme_name || theme_id`, no references yet. */
  function GroupFor(t: Theme): (g: Group)
    requires Truthy(t.themeId)
    ensures g.id == t.themeId.value && g.refs == []
    ensures Truthy(t.themeName) ==> g.name == t.themeName.value
    ensures !Truthy(t.themeName) ==> g.name == t.themeId.value
  {
    Group(t.themeId.value, Or(t.themeName, t.themeId).value, [])
  }

  /** The groups `themeList.forEach` pushes: one per theme whose id is truthy. */
  function ThemeGroups(ts: seq<Theme>): seq<Group> {
    if ts == [] then []
    else
      var t := ts[|ts| - 1];
      ThemeGroups(ts[..|ts| - 1]) + (if Truthy(t.themeId) then [GroupFor(t)] else [])
  }

  /** The positions in the theme list of the themes that got a group. */
  function ThemeGroupSources(ts: seq<Theme>): seq<nat> {
    if ts == [] then []
    else ThemeGroupSources(ts[..|ts| - 1]) + (if Truthy(ts[|ts| - 1].themeId) then [|ts| - 1] else [])
  }

  /** The theme groups follow the theme list (see FollowsThemes). */
  lemma {:induction false} ThemeGroupsFollowThemes(ts: seq<Theme>)
    ensures FollowsThemes(ThemeGroups(ts), ThemeGroupSources(ts), ts)
  {
    if ts != [] {
      var n := |ts| - 1;
      ThemeGroupsFollowThemes(ts[..n]);
      var gi, si := ThemeGroups(ts[..n]), ThemeGroupSources(ts[..n]);
      if Truthy(ts[n].themeId) {
        assert ThemeGroups(ts) == gi + [GroupFor(ts[n])];
        assert ThemeGroupSources(ts) == si + [n];
        FollowsThemesWithGroup(gi, si, ts);
      } else {
        assert ThemeGroups(ts) == gi + [];
        assert ThemeGroupSources(ts) == si + [];
        FollowsThemesWithoutGroup(gi, si, ts);
      }
    }
  }

  /** A last theme with an id adds its group at the end. */
  lemma FollowsThemesWithGroup(gi: seq<Group>, si: seq<nat>, ts: seq<Theme>)
    requires ts != [] && Truthy(ts[|ts| - 1].themeId)
    requires FollowsThemes(gi, si, ts[..|ts| - 1])
    ensures FollowsThemes(gi + [GroupFor(ts[|ts| - 1])], si + [|ts| - 1], ts)
  {
    var n := |ts| - 1;
    var init := ts[..n];
    var gs, src := gi + [GroupFor(ts[n])], si + [n];
    forall g | 0 <= g < |gs|
      ensures src[g] < |ts| && Truthy(ts[src[g]].themeId) && gs[g] == GroupFor(ts[src[g]])
    {
      if g < |gi| {
        assert gs[g] == gi[g] && src[g] == si[g] && init[si[g]] == ts[si[g]];
      }
    }
    forall g1, g2 | 0 <= g1 < g2 < |src|
      ensures src[g1] < src[g2]
    {
      assert src[g1] == si[g1] && si[g1] < n;
      if g2 < |si| {
        assert src[g2] == si[g2];
      }
    }
    forall j | 0 <= j < |ts| && Truthy(ts[j].themeId)
      ensures j in src
    {
      if j < n {
        assert init[j] == ts[j] && j in si;
      } else {
        assert src[|si|] == n;
      }
    }
  }

  /** A last theme without an id adds no group. */
  lemma FollowsThemesWithoutGroup(gi: seq<Group>, si: seq<nat>, ts: seq<Theme>)
    requires ts != [] && !Truthy(ts[|ts| - 1].themeId)
    requires FollowsThemes(gi, si, ts[..|ts| - 1])
    ensures FollowsThemes(gi, si, ts)
  {
    var init := ts[..|ts| - 1];
    forall g | 0 <= g < |gi|
      ensures si[g] < |ts| && Truthy(ts[si[g]].themeId) && gi[g] == GroupFor(ts[si[g]])
    {
      assert init[si[g]] == ts[si[g]];
    }
    forall j | 0 <= j < |ts| && Truthy(ts[j].themeId)
      ensures j in si
    {
      assert init[j] == ts[j];
    }
  }

  /**
   * The theme groups are exactly the themes with an id, in theme-list order: group
   * `g` is built from theme `src[g]`, the positions increase, and every theme with an
   * id has its group.
   */
  predicate FollowsThemes(gs: seq<Group>, src: seq<nat>, ts: seq<Theme>) {
    && |src| == |gs|
    && (forall g :: 0 <= g < |gs| ==> src[g] < |ts| && Truthy(ts[src[g]].themeId) && gs[g] == GroupFor(ts[src[g]]))
    && (forall g1, g2 :: 0 <= g1 < g2 < |src| ==> src[g1] < src[g2])
    && (forall j :: 0 <= j < |ts| && Truthy(ts[j].themeId) ==> j in src)
  }

  /** The groups before any evidence is added: the theme groups, then General. */
  function InitialGroups(ts: seq<Theme>): (gs: seq<Group>)
    ensures |gs| >= 1 && gs[|gs| - 1] == Group(GeneralId, GeneralName, [])
  {
    ThemeGroups(ts) + [Group(GeneralId, GeneralName, [])]
  }

  /** Before any evidence is added every group is empty. */
  lemma InitialGroupsEmpty(ts: seq<Theme>)
    ensures forall g :: 0 <= g < |InitialGroups(ts)| ==> InitialGroups(ts)[g].refs == []
  {
    ThemeGroupsFollowThemes(ts);
    var gs := InitialGroups(ts);
    assert forall g :: 0 <= g < |gs| - 1 ==> gs[g] == ThemeGroups(ts)[g];
  }

  /** `themeGroupMap`: each id to the position of the last group with that id. */
  function GroupIndex(gs: seq<Group>): (index: map<string, nat>)
    ensures IndexesGroups(index, gs)
  {
    if gs == [] then map[]
    else
      var init := GroupIndex(gs[..|gs| - 1]);
      GroupIndexStep(gs, init);
      init[gs[|gs| - 1].id := |gs| - 1]
  }

  /**
   * The map sends each id to a position holding it, knows every id of the list, and
   * no later group has the same id: the last group with an id wins.
   */
  predicate IndexesGroups(index: map<string, nat>, gs: seq<Group>) {
    && (forall k :: k in index ==> index[k] < |gs| && gs[index[k]].id == k)
    && (forall g :: 0 <= g < |gs| ==> gs[g].id in index)
    && (forall k :: k in index ==> forall g :: index[k] < g < |gs| ==> gs[g].id != k)
  }

  lemma GroupIndexStep(gs: seq<Group>, init: map<string, nat>)
    requires gs != [] && IndexesGroups(init, gs[..|gs| - 1])
    ensures IndexesGroups(init[gs[|gs| - 1].id := |gs| - 1], gs)
  {
    var last := |gs| - 1;
    var front := gs[..last];
    var index := init[gs[last].id := last];
    forall k | k in index
      ensures index[k] < |gs| && gs[index[k]].id == k
    {
      if k != gs[last].id {
        assert front[init[k]] == gs[init[k]];
      }
    }
    forall g | 0 <= g < |gs|
      ensures gs[g].id in index
    {
      if g < last {
        assert front[g] == gs[g];
      }
    }
    forall k, g | k in index && index[k] < g < |gs|
      ensures gs[g].id != k
    {
      if k != gs[last].id && g < last {
        assert front[g] == gs[g];
      }
    }
  }

  /** The positions of a map point into a list of `n` groups and General is known. */
  predicate IndexOk(index: map<string, nat>, n: nat) {
    GeneralId in index && forall k :: k in index ==> index[k] < n
  }

  function Index(ts: seq<Theme>): map<string, nat> {
    GroupIndex(InitialGroups(ts))
  }

  lemma InitialIndexOk(ts: seq<Theme>)
    ensures IndexOk(Index(ts), |InitialGroups(ts)|)
    ensures Index(ts)[GeneralId] == |InitialGroups(ts)| - 1
  {
    var gs := InitialGroups(ts);
    assert gs[|gs| - 1].id == GeneralId;
  }

  /**
   * The group `addToGroup(themeId, …)` fills: the one the map gives for a truthy,
   * known id, and General otherwise.
   */
  function Target(index: map<string, nat>, themeId: Option<string>): nat
    requires GeneralId in index
  {
    if Truthy(themeId) && themeId.value in index then index[themeId.value] else index[GeneralId]
  }

  /**
   * Where a theme id sends its evidence: to the last group with that id when there
   * is one (so to General for the id "__general__"), and to General for an absent,
   * empty or unknown id.
   */
  lemma TargetOfThemeId(ts: seq<Theme>, themeId: Option<string>)
    ensures var gs := InitialGroups(ts); var t := Target(Index(ts), themeId);
      && t < |gs|
      && (Truthy(themeId) && (exists g :: 0 <= g < |gs| && gs[g].id == themeId.value) ==>
            gs[t].id == themeId.value && forall g :: t < g < |gs| ==> gs[g].id != themeId.value)
      && (!Truthy(themeId) || (forall g :: 0 <= g < |gs| ==> gs[g].id != themeId.value) ==>
            t == |gs| - 1)
  {
    InitialIndexOk(ts);
  }

  /** `e.url || e.id`, the key the appendix deduplicates by. */
  function Key(e: EvidenceRef): Option<string> {
    Or(e.url, e.id)
  }

  // ---------------------------------------------------------------------------
  // addToGroup as a fold over visits

  /** The appendix state: the groups and `globalSeen`. */
  datatype State = State(groups: seq<Group>, seen: set<string>)

  /** One reference offered to the group at position `target`. */
  datatype Visit = Visit(target: nat, ref: EvidenceRef)

  /** Two group lists with the same ids and names, position by position. */
  predicate SameFrame(a: seq<Group>, b: seq<Group>) {
    |a| == |b| && forall g :: 0 <= g < |a| ==> a[g].id == b[g].id && a[g].name == b[g].name
  }

  predicate Fits(vs: seq<Visit>, n: nat) {
    forall i :: 0 <= i < |vs| ==> vs[i].target < n
  }

  /** The body of the `for (const e of ev)` loop for one reference. */
  function Step(st: State, v: Visit): (r: State)
    requires v.target < |st.groups|
    ensures SameFrame(r.groups, st.groups)
  {
    var k := Key(v.ref);
    if Truthy(k) && k.value !in st.seen then
      var g := st.groups[v.target];
      State(st.groups[v.target := g.(refs := g.refs + [v.ref])], st.seen + {k.value})
    else st
  }

  /** The state after offering the visits in order. */
  function Run(st: State, vs: seq<Visit>): (r: State)
    requires Fits(vs, |st.groups|)
    ensures SameFrame(r.groups, st.groups)
    decreases |vs|
  {
    if vs == [] then st
    else Step(Run(st, vs[..|vs| - 1]), vs[|vs| - 1])
  }

  lemma {:induction false} RunAppend(st: State, a: seq<Visit>, b: seq<Visit>)
    requires Fits(a, |st.groups|) && Fits(b, |st.groups|)
    ensures Fits(a + b, |st.groups|) && Fits(b, |Run(st, a).groups|)
    ensures Run(st, a + b) == Run(Run(st, a), b)
    decreases |b|
  {
    assert Fits(a + b, |st.groups|) by {
      forall i | 0 <= i < |a + b| ensures (a + b)[i].target < |st.groups| {
        if i >= |a| {
          assert (a + b)[i] == b[i - |a|];
        }
      }
    }
    if b == [] {
      assert a + b == a;
    } else {
      var init := b[..|b| - 1];
      assert (a + b)[..|a + b| - 1] == a + init;
      RunAppend(st, a, init);
    }
  }

  /** What one `addToGroup(themeId, ev)` offers: every reference, to one target. */
  function Visits(index: map<string, nat>, themeId: Option<string>, ev: seq<EvidenceRef>): (vs: seq<Visit>)
    requires GeneralId in index
    ensures |vs| == |ev| && forall i :: 0 <= i < |ev| ==> vs[i] == Visit(Target(index, themeId), ev[i])
  {
    seq(|ev|, i requires 0 <= i < |ev| => Visit(Target(index, themeId), ev[i]))
  }

  // ---------------------------------------------------------------------------
  // The reference definition: the first visit of every key

  /** The truthy keys of the visits. */
  function KeySet(vs: seq<Visit>): set<string> {
    if vs == [] then {}
    else
      var k := Key(vs[|vs| - 1].ref);
      KeySet(vs[..|vs| - 1]) + (if Truthy(k) then {k.value} else {})
  }

  lemma {:induction false} KeySetMembers(vs: seq<Visit>, k: string)
    ensures k in KeySet(vs) <==> exists i :: 0 <= i < |vs| && Key(vs[i].ref) == Some(k) && k != ""
  {
    if vs != [] {
      var init := vs[..|vs| - 1];
      KeySetMembers(init, k);
      if k in KeySet(init) {
        var i :| 0 <= i < |init| && Key(init[i].ref) == Some(k) && k != "";
        assert vs[i] == init[i];
      }
      if exists i :: 0 <= i < |vs| && Key(vs[i].ref) == Some(k) && k != "" {
        var i :| 0 <= i < |vs| && Key(vs[i].ref) == Some(k) && k != "";
        if i < |init| {
          assert init[i] == vs[i];
        }
      }
    }
  }

  /** The visits whose key is truthy and was not seen at an earlier visit, in order. */
  function FirstVisits(vs: seq<Visit>): seq<Visit> {
    if vs == [] then []
    else
      var v := vs[|vs| - 1];
      var k := Key(v.ref);
      FirstVisits(vs[..|vs| - 1]) + (if Truthy(k) && k.value !in KeySet(vs[..|vs| - 1]) then [v] else [])
  }

  /** The references of the visits that target group `g`, in order. */
  function RefsFor(vs: seq<Visit>, g: nat): seq<EvidenceRef> {
    if vs == [] then []
    else
      var v := vs[|vs| - 1];
      RefsFor(vs[..|vs| - 1], g) + (if v.target == g then [v.ref] else [])
  }

  /**
   * The fold agrees with the reference definition: starting with nothing seen, the
   * seen set is the set of truthy keys, and every group receives, in order, the
   * first visits of their keys that target it.
   */
  lemma {:induction false} RunIsFirstVisits(st: State, vs: seq<Visit>)
    requires Fits(vs, |st.groups|) && st.seen == {}
    ensures Run(st, vs).seen == KeySet(vs)
    ensures forall g :: 0 <= g < |st.groups| ==>
      Run(st, vs).groups[g].refs == st.groups[g].refs + RefsFor(FirstVisits(vs), g)
    decreases |vs|
  {
    if vs != [] {
      var init := vs[..|vs| - 1];
      var v := vs[|vs| - 1];
      RunIsFirstVisits(st, init);
      var f := FirstVisits(init);
      var k := Key(v.ref);
      if Truthy(k) && k.value !in KeySet(init) {
        assert FirstVisits(vs) == f + [v];
        assert (f + [v])[..|f|] == f;
      } else {
        assert FirstVisits(vs) == f;
      }
    }
  }

  lemma {:induction false} FirstVisitIncluded(vs: seq<Visit>, j: nat)
    requires j < |vs| && Truthy(Key(vs[j].ref))
    requires forall i :: 0 <= i < j ==> Key(vs[i].ref) != Key(vs[j].ref)
    ensures vs[j] in FirstVisits(vs)
    decreases |vs|
  {
    var init := vs[..|vs| - 1];
    if j == |vs| - 1 {
      KeySetMembers(init, Key(vs[j].ref).value);
    } else {
      assert init[j] == vs[j];
      forall i | 0 <= i < j ensures Key(init[i].ref) != Key(init[j].ref) {
        assert init[i] == vs[i];
      }
      FirstVisitIncluded(init, j);
    }
  }

  lemma {:induction false} FirstVisitsAreVisits(vs: seq<Visit>)
    ensures forall v :: v in FirstVisits(vs) ==> v in vs
    decreases |vs|
  {
    if vs != [] {
      var init := vs[..|vs| - 1];
      FirstVisitsAreVisits(init);
      assert forall v :: v in init ==> v in vs;
    }
  }

  lemma {:induction false} RefsForMembers(vs: seq<Visit>, g: nat, e: EvidenceRef)
    ensures e in RefsFor(vs, g) <==> Visit(g, e) in vs
    decreases |vs|
  {
    if vs != [] {
      var init := vs[..|vs| - 1];
      RefsForMembers(init, g, e);
      assert vs == init + [vs[|vs| - 1]];
    }
  }

  // ---------------------------------------------------------------------------
  // Uniqueness of the rows

  /**
   * Every row has a truthy key that is in the seen set, and no two rows, in the same
   * group or in different groups, share a key.
   */
  predicate RowsKeyed(st: State) {
    && (forall g, i :: 0 <= g < |st.groups| && 0 <= i < |st.groups[g].refs| ==>
          Truthy(Key(st.groups[g].refs[i])) && Key(st.groups[g].refs[i]).value in st.seen)
    && (forall g1, i1, g2, i2 ::
          0 <= g1 < |st.groups| && 0 <= i1 < |st.groups[g1].refs| &&
          0 <= g2 < |st.groups| && 0 <= i2 < |st.groups[g2].refs| && (g1 != g2 || i1 != i2) ==>
          Key(st.groups[g1].refs[i1]) != Key(st.groups[g2].refs[i2]))
  }

  lemma StepKeepsRowsKeyed(st: State, v: Visit)
    requires v.target < |st.groups| && RowsKeyed(st)
    ensures RowsKeyed(Step(st, v))
  {
    var k := Key(v.ref);
    if Truthy(k) && k.value !in st.seen {
      var r := Step(st, v);
      var t := v.target;
      var n := |st.groups[t].refs|;
      assert forall g, i :: 0 <= g < |r.groups| && 0 <= i < |r.groups[g].refs| && !(g == t && i == n) ==>
        i < |st.groups[g].refs| && r.groups[g].refs[i] == st.groups[g].refs[i];
      assert r.groups[t].refs[n] == v.ref;
    }
  }

  lemma {:induction false} RunKeepsRowsKeyed(st: State, vs: seq<Visit>)
    requires Fits(vs, |st.groups|) && RowsKeyed(st)
    ensures RowsKeyed(Run(st, vs))
    decreases |vs|
  {
    if vs != [] {
      RunKeepsRowsKeyed(st, vs[..|vs| - 1]);
      StepKeepsRowsKeyed(Run(st, vs[..|vs| - 1]), vs[|vs| - 1]);
    }
  }

  // ---------------------------------------------------------------------------
  // The traversal

  /** One `addToGroup(themeId, evidence)` call. */
  datatype Call = Call(themeId: Option<string>, evidence: seq<EvidenceRef>)

  /** The visits of a list of calls, call after call. */
  function Flatten(index: map<string, nat>, calls: seq<Call>): seq<Visit>
    requires GeneralId in index
  {
    if calls == [] then []
    else
      var c := calls[|calls| - 1];
      Flatten(index, calls[..|calls| - 1]) + Visits(index, c.themeId, c.evidence)
  }

  lemma {:induction false} FlattenFits(index: map<string, nat>, calls: seq<Call>, n: nat)
    requires IndexOk(index, n)
    ensures Fits(Flatten(index, calls), n)
  {
    if calls != [] {
      FlattenFits(index, calls[..|calls| - 1], n);
    }
  }

  lemma {:induction false} FlattenAppend(index: map<string, nat>, a: seq<Call>, b: seq<Call>)
    requires GeneralId in index
    ensures Flatten(index, a + b) == Flatten(index, a) + Flatten(index, b)
    decreases |b|
  {
    if b == [] {
      assert a + b == a;
    } else {
      var init := b[..|b| - 1];
      assert (a + b)[..|a + b| - 1] == a + init;
      var last := b[|b| - 1];
      assert (a + b)[|a + b| - 1] == last;
      FlattenAppend(index, a, init);
      AppendAssoc(Flatten(index, a), Flatten(index, init), Visits(index, last.themeId, last.evidence));
    }
  }

  function ThemeCalls(ts: seq<Theme>): seq<Call> {
    seq(|ts|, i requires 0 <= i < |ts| => Call(ts[i].themeId, ts[i].anchorEvidence))
  }

  /** The calls for the bullets of one `bullets_by_theme` entry, all with its theme id. */
  function GroupCalls(bt: BulletGroup): seq<Call> {
    seq(|bt.bullets|, i requires 0 <= i < |bt.bullets| => Call(bt.themeId, bt.bullets[i].evidence))
  }

  function ByThemeCalls(bts: seq<BulletGroup>): seq<Call> {
    if bts == [] then [] else ByThemeCalls(bts[..|bts| - 1]) + GroupCalls(bts[|bts| - 1])
  }

  function StoryCalls(ss: seq<Story>): seq<Call> {
    seq(|ss|, i requires 0 <= i < |ss| => Call(ss[i].themeId, ss[i].evidence))
  }

  /** Bullets with the theme id each carries (the top-ten list). */
  function BulletCalls(bs: seq<Bullet>): seq<Call> {
    seq(|bs|, i requires 0 <= i < |bs| => Call(bs[i].themeId, bs[i].evidence))
  }

  /** Self-evaluation items, all without a theme id. */
  function UnthemedCalls(bs: seq<Bullet>): seq<Call> {
    seq(|bs|, i requires 0 <= i < |bs| => Call(None, bs[i].evidence))
  }

  function SectionCall(s: Option<Section>): seq<Call> {
    if s.Some? then [Call(None, s.value.evidence)] else []
  }

  /**
   * The calls in the order the code makes them: theme anchors, bullets by theme,
   * stories, top-ten bullets, then summary, key accomplishments, how I worked,
   * growth and next year goals, all of these last five without a theme id.
   */
  function AllCalls(inp: ReportInput): seq<Call> {
    ThemeCalls(inp.themes) + ByThemeCalls(inp.byTheme) + StoryCalls(inp.stories) + BulletCalls(inp.top10)
    + SectionCall(inp.sections.summary) + UnthemedCalls(inp.sections.keyAccomplishments)
    + SectionCall(inp.sections.howIWorked) + SectionCall(inp.sections.growth)
    + UnthemedCalls(inp.sections.nextYearGoals)
  }

  function InitialState(ts: seq<Theme>): State {
    State(InitialGroups(ts), {})
  }

  function AllVisits(inp: ReportInput): (vs: seq<Visit>)
    ensures Fits(vs, |InitialGroups(inp.themes)|)
  {
    InitialIndexOk(inp.themes);
    FlattenFits(Index(inp.themes), AllCalls(inp), |InitialGroups(inp.themes)|);
    Flatten(Index(inp.themes), AllCalls(inp))
  }

  /** The groups once every call has been made. */
  function FinalState(inp: ReportInput): State {
    Run(InitialState(inp.themes), AllVisits(inp))
  }

  /**
   * The groups keep their ids, names and order: the themes with an id in theme-list
   * order, then General.
   */
  lemma FinalGroupsFrame(inp: ReportInput)
    ensures SameFrame(FinalState(inp).groups, InitialGroups(inp.themes))
    ensures |FinalState(inp).groups| == |ThemeGroups(inp.themes)| + 1
    ensures forall g :: 0 <= g < |ThemeGroups(inp.themes)| ==>
      FinalState(inp).groups[g].id == ThemeGroups(inp.themes)[g].id &&
      FinalState(inp).groups[g].name == ThemeGroups(inp.themes)[g].name
    ensures FinalState(inp).groups[|ThemeGroups(inp.themes)|].id == GeneralId
    ensures FinalState(inp).groups[|ThemeGroups(inp.themes)|].name == GeneralName
  {
    var gs := InitialGroups(inp.themes);
    assert forall g :: 0 <= g < |ThemeGroups(inp.themes)| ==> gs[g] == ThemeGroups(inp.themes)[g];
  }

  /** No two appendix rows share a key, and no row lacks one. */
  lemma AppendixRowsUnique(inp: ReportInput)
    ensures RowsKeyed(FinalState(inp))
  {
    InitialGroupsEmpty(inp.themes);
    RunKeepsRowsKeyed(InitialState(inp.themes), AllVisits(inp));
  }

  /**
   * The first visit of a key puts its reference in the group that visit targets.
   */
  lemma FirstVisitPlaced(inp: ReportInput, j: nat)
    requires j < |AllVisits(inp)| && Truthy(Key(AllVisits(inp)[j].ref))
    requires forall i :: 0 <= i < j ==> Key(AllVisits(inp)[i].ref) != Key(AllVisits(inp)[j].ref)
    ensures AllVisits(inp)[j].target < |FinalState(inp).groups|
    ensures AllVisits(inp)[j].ref in FinalState(inp).groups[AllVisits(inp)[j].target].refs
  {
    FirstVisitLands(InitialState(inp.themes), AllVisits(inp), j);
  }

  lemma FirstVisitLands(st: State, vs: seq<Visit>, j: nat)
    requires Fits(vs, |st.groups|) && st.seen == {}
    requires j < |vs| && Truthy(Key(vs[j].ref))
    requires forall i :: 0 <= i < j ==> Key(vs[i].ref) != Key(vs[j].ref)
    ensures vs[j].ref in Run(st, vs).groups[vs[j].target].refs
  {
    var t := vs[j].target;
    RunIsFirstVisits(st, vs);
    FirstVisitIncluded(vs, j);
    RefsForMembers(FirstVisits(vs), t, vs[j].ref);
    InAppend(vs[j].ref, st.groups[t].refs, RefsFor(FirstVisits(vs), t));
  }

  /** Once some visit has a truthy key, some group is non-empty. */
  lemma KeyedVisitFillsAGroup(st: State, vs: seq<Visit>, j0: nat)
    requires Fits(vs, |st.groups|) && st.seen == {}
    requires j0 < |vs| && Truthy(Key(vs[j0].ref))
    ensures HasAnyEvidence(Run(st, vs).groups)
  {
    FirstKeyedVisit(vs, j0);
    var j :| 0 <= j <= j0 && Truthy(Key(vs[j].ref)) && forall i :: 0 <= i < j ==> !Truthy(Key(vs[i].ref));
    FirstVisitLands(st, vs, j);
    assert Run(st, vs).groups[vs[j].target].refs != [];
  }

  /** Every row of a group was offered to that group by some call. */
  lemma RowsComeFromVisits(inp: ReportInput, g: nat, e: EvidenceRef)
    requires g < |FinalState(inp).groups| && e in FinalState(inp).groups[g].refs
    ensures Visit(g, e) in AllVisits(inp)
  {
    var vs := AllVisits(inp);
    var st := InitialState(inp.themes);
    RunIsFirstVisits(st, vs);
    InitialGroupsEmpty(inp.themes);
    RefsForMembers(FirstVisits(vs), g, e);
    FirstVisitsAreVisits(vs);
  }

  // ---------------------------------------------------------------------------
  // The imperative addToGroup and traversal

  /**
   * `addToGroup(themeId, ev)`: the references of `ev` whose key is truthy and unseen
   * are appended, in order, to the target group and their keys marked seen.
   */
  method AddToGroup(index: map<string, nat>, st: State, themeId: Option<string>, ev: seq<EvidenceRef>)
    returns (r: State)
    requires IndexOk(index, |st.groups|)
    ensures Fits(Visits(index, themeId, ev), |st.groups|)
    ensures r == Run(st, Visits(index, themeId, ev))
  {
    var target := Target(index, themeId);
    ghost var vs := Visits(index, themeId, ev);
    var groups := st.groups;
    var seen := st.seen;
    for i := 0 to |ev|
      invariant Fits(vs[..i], |st.groups|)
      invariant State(groups, seen) == Run(st, vs[..i])
    {
      assert vs[..i + 1][..i] == vs[..i];
      var e := ev[i];
      var key := Key(e);
      if Truthy(key) && key.value !in seen {
        seen := seen + {key.value};
        groups := groups[target := groups[target].(refs := groups[target].refs + [e])];
      }
    }
    assert vs[..|ev|] == vs;
    r := State(groups, seen);
  }

  /** The calls of one `forEach`, made in order. */
  method AddCalls(index: map<string, nat>, st: State, calls: seq<Call>) returns (r: State)
    requires IndexOk(index, |st.groups|)
    ensures Fits(Flatten(index, calls), |st.groups|)
    ensures r == Run(st, Flatten(index, calls))
  {
    FlattenFits(index, calls, |st.groups|);
    r := st;
    for i := 0 to |calls|
      invariant Fits(Flatten(index, calls[..i]), |st.groups|)
      invariant r == Run(st, Flatten(index, calls[..i]))
    {
      assert calls[..i + 1][..i] == calls[..i];
      FlattenFits(index, calls[..i + 1], |st.groups|);
      var before := r;
      r := AddToGroup(index, r, calls[i].themeId, calls[i].evidence);
      RunAppend(st, Flatten(index, calls[..i]), Visits(index, calls[i].themeId, calls[i].evidence));
    }
    assert calls[..|calls|] == calls;
  }

  /** `byTheme.forEach((bt) => (bt.bullets ?? []).forEach(…))`. */
  method AddGroupedBullets(index: map<string, nat>, st: State, bts: seq<BulletGroup>) returns (r: State)
    requires IndexOk(index, |st.groups|)
    ensures Fits(Flatten(index, ByThemeCalls(bts)), |st.groups|)
    ensures r == Run(st, Flatten(index, ByThemeCalls(bts)))
  {
    FlattenFits(index, ByThemeCalls(bts), |st.groups|);
    r := st;
    for i := 0 to |bts|
      invariant Fits(Flatten(index, ByThemeCalls(bts[..i])), |st.groups|)
      invariant r == Run(st, Flatten(index, ByThemeCalls(bts[..i])))
    {
      assert bts[..i + 1][..i] == bts[..i];
      var done := ByThemeCalls(bts[..i]);
      FlattenAppend(index, done, GroupCalls(bts[i]));
      FlattenFits(index, GroupCalls(bts[i]), |st.groups|);
      r := AddCalls(index, r, GroupCalls(bts[i]));
      RunAppend(st, Flatten(index, done), Flatten(index, GroupCalls(bts[i])));
    }
    assert bts[..|bts|] == bts;
  }

  /** Appending the visits of more calls to the state built so far. */
  lemma RunMore(st: State, index: map<string, nat>, done: seq<Call>, more: seq<Call>)
    requires IndexOk(index, |st.groups|)
    ensures Fits(Flatten(index, done), |st.groups|) && Fits(Flatten(index, done + more), |st.groups|)
    ensures Fits(Flatten(index, more), |Run(st, Flatten(index, done)).groups|)
    ensures Run(st, Flatten(index, done + more)) == Run(Run(st, Flatten(index, done)), Flatten(index, more))
  {
    FlattenFits(index, done, |st.groups|);
    FlattenFits(index, more, |st.groups|);
    FlattenFits(index, done + more, |st.groups|);
    FlattenAppend(index, done, more);
    RunAppend(st, Flatten(index, done), Flatten(index, more));
  }

  /** One traversal step: the calls of `more` made after those of `done`. */
  method AddMore(index: map<string, nat>, st0: State, done: seq<Call>, r: State, more: seq<Call>)
    returns (r': State, done': seq<Call>)
    requires IndexOk(index, |st0.groups|)
    requires Fits(Flatten(index, done), |st0.groups|) && r == Run(st0, Flatten(index, done))
    ensures done' == done + more
    ensures Fits(Flatten(index, done'), |st0.groups|) && r' == Run(st0, Flatten(index, done'))
  {
    RunMore(st0, index, done, more);
    r' := AddCalls(index, r, more);
    done' := done + more;
  }

  /** The nine traversal steps, in the order of the code. */
  method CollectEvidence(inp: ReportInput) returns (r: State)
    ensures r == FinalState(inp)
  {
    var ts := inp.themes;
    var groups := BuildGroups(ts);
    var index := BuildIndex(groups);
    InitialIndexOk(ts);
    var st0 := State(groups, {});
    var sec := inp.sections;
    FlattenFits(index, ThemeCalls(ts), |st0.groups|);
    r := AddCalls(index, st0, ThemeCalls(ts));
    var done := ThemeCalls(ts);
    // The nested forEach over bullets_by_theme
    RunMore(st0, index, done, ByThemeCalls(inp.byTheme));
    r := AddGroupedBullets(index, r, inp.byTheme);
    done := done + ByThemeCalls(inp.byTheme);
    r, done := AddMore(index, st0, done, r, StoryCalls(inp.stories));
    r, done := AddMore(index, st0, done, r, BulletCalls(inp.top10));
    r, done := AddMore(index, st0, done, r, SectionCall(sec.summary));
    r, done := AddMore(index, st0, done, r, UnthemedCalls(sec.keyAccomplishments));
    r, done := AddMore(index, st0, done, r, SectionCall(sec.howIWorked));
    r, done := AddMore(index, st0, done, r, SectionCall(sec.growth));
    r, done := AddMore(index, st0, done, r, UnthemedCalls(sec.nextYearGoals));
    assert done == AllCalls(inp);
  }

  /** The `themeList.forEach` that pushes a group per theme with an id, then General. */
  method BuildGroups(ts: seq<Theme>) returns (groups: seq<Group>)
    ensures groups == InitialGroups(ts)
  {
    groups := [];
    for i := 0 to |ts|
      invariant groups == ThemeGroups(ts[..i])
    {
      assert ts[..i + 1][..i] == ts[..i];
      var t := ts[i];
      if Truthy(t.themeId) {
        groups := groups + [Group(t.themeId.value, Or(t.themeName, t.themeId).value, [])];
      }
    }
    assert ts[..|ts|] == ts;
    groups := groups + [Group(GeneralId, GeneralName, [])];
  }

  /** `themeGroupMap`, filled alongside the group list. */
  method BuildIndex(groups: seq<Group>) returns (index: map<string, nat>)
    ensures index == GroupIndex(groups)
  {
    index := map[];
    for i := 0 to |groups|
      invariant index == GroupIndex(groups[..i])
    {
      assert groups[..i + 1][..i] == groups[..i];
      index := index[groups[i].id := i];
    }
    assert groups[..|groups|] == groups;
  }

  // ---------------------------------------------------------------------------
  // Rendering

  /** The title escape of line 277: backslashes doubled, then `|` escaped. */
  function EscapeTitle(t: string): string {
    ReplaceAll(ReplaceAll(t, "\\", "\\\\"), "|", "\\|")
  }

  /** The same escape, character by character. */
  function EscapeChars(t: string): string {
    if t == [] then ""
    else (if t[0] == '\\' then "\\\\" else if t[0] == '|' then "\\|" else [t[0]]) + EscapeChars(t[1..])
  }

  /** Reading an escaped title back: a backslash takes the next character literally. */
  function Unescape(s: string): string
    decreases |s|
  {
    if s == [] then ""
    else if s[0] == '\\' && |s| >= 2 then [s[1]] + Unescape(s[2..])
    else [s[0]] + Unescape(s[1..])
  }

  /** Every `|` is escaped: reading left to right, a bare `|` never occurs. */
  predicate NoBarePipe(s: string)
    decreases |s|
  {
    if s == [] then true
    else if s[0] == '\\' then |s| >= 2 && NoBarePipe(s[2..])
    else s[0] != '|' && NoBarePipe(s[1..])
  }

  lemma {:induction false} ReplaceCharAppend(a: string, b: string, c: char, rep: string)
    ensures ReplaceAll(a + b, [c], rep) == ReplaceAll(a, [c], rep) + ReplaceAll(b, [c], rep)
    decreases |a|
  {
    if a == [] {
      assert a + b == b;
    } else {
      var s := a + b;
      var h := if a[0] == c then rep else [a[0]];
      var ra, rb := ReplaceAll(a[1..], [c], rep), ReplaceAll(b, [c], rep);
      calc {
        ReplaceAll(s, [c], rep);
        { ReplaceCharCons(s, c, rep); assert s[0] == a[0] && s[1..] == a[1..] + b; }
        h + ReplaceAll(a[1..] + b, [c], rep);
        { ReplaceCharAppend(a[1..], b, c, rep); }
        h + (ra + rb);
        { AppendAssoc(h, ra, rb); }
        (h + ra) + rb;
        { ReplaceCharCons(a, c, rep); }
        ReplaceAll(a, [c], rep) + rb;
      }
    }
  }

  lemma {:induction false} EscapeTitleByChars(t: string)
    ensures EscapeTitle(t) == EscapeChars(t)
    decreases |t|
  {
    if t != [] {
      var c := t[0];
      var d := ReplaceAll(t, "\\", "\\\\");
      ReplaceCharCons(t, '\\', "\\\\");
      var head := if c == '\\' then "\\\\" else [c];
      assert d == head + ReplaceAll(t[1..], "\\", "\\\\");
      ReplaceCharAppend(head, ReplaceAll(t[1..], "\\", "\\\\"), '|', "\\|");
      if c == '\\' {
        assert ReplaceAll("\\\\", "|", "\\|") == "\\\\" by {
          ReplaceCharCons("\\\\", '|', "\\|");
          ReplaceCharCons("\\", '|', "\\|");
        }
      } else {
        ReplaceCharCons([c], '|', "\\|");
        assert [c][1..] == [];
      }
      EscapeTitleByChars(t[1..]);
    }
  }

  lemma {:induction false} EscapeCharsProperties(t: string)
    ensures NoBarePipe(EscapeChars(t)) && Unescape(EscapeChars(t)) == t
    decreases |t|
  {
    if t != [] {
      EscapeCharsProperties(t[1..]);
      var rest := EscapeChars(t[1..]);
      var s := EscapeChars(t);
      if t[0] == '\\' || t[0] == '|' {
        assert s[2..] == rest;
      } else {
        assert s[1..] == rest;
      }
    }
  }

  /**
   * A rendered title cannot break the table: it has no unescaped `|`, and unescaping
   * it gives the title back.
   */
  lemma EscapedTitleIsSafe(t: string)
    ensures NoBarePipe(EscapeTitle(t))
    ensures Unescape(EscapeTitle(t)) == t
  {
    EscapeTitleByChars(t);
    EscapeCharsProperties(t);
  }

  /** `| ${id} | ${title} | ${url} |`, absent fields as "". */
  function RowLine(e: EvidenceRef): string {
    "| " + Or(e.id, Some("")).value + " | " + EscapeTitle(Or(e.title, Some("")).value)
    + " | " + Or(e.url, Some("")).value + " |"
  }

  function RowLines(rs: seq<EvidenceRef>): (lines: seq<string>)
  {
    if rs == [] then [] else RowLines(rs[..|rs| - 1]) + [RowLine(rs[|rs| - 1])]
  }

  lemma {:induction false} RowLinesAt(rs: seq<EvidenceRef>)
    ensures |RowLines(rs)| == |rs| && forall i :: 0 <= i < |rs| ==> RowLines(rs)[i] == RowLine(rs[i])
  {
    if rs != [] {
      RowLinesAt(rs[..|rs| - 1]);
    }
  }

  const TableHeader := "| ID | Title | URL |"
  const TableRule := "|----|-------|-----|"

  /** A group's block: nothing for an empty group. */
  function GroupLines(g: Group): seq<string> {
    if g.refs == [] then []
    else ["### " + g.name, "", TableHeader, TableRule] + RowLines(g.refs) + [""]
  }

  function GroupsLines(gs: seq<Group>): seq<string> {
    if gs == [] then [] else GroupsLines(gs[..|gs| - 1]) + GroupLines(gs[|gs| - 1])
  }

  predicate HasAnyEvidence(gs: seq<Group>) {
    exists g :: 0 <= g < |gs| && gs[g].refs != []
  }

  const AppendixHead: seq<string> := SectionHead("## Evidence Appendix")

  function AppendixLines(gs: seq<Group>): seq<string> {
    if HasAnyEvidence(gs) then AppendixHead + GroupsLines(gs) else []
  }

  /** Empty groups render nothing; the appendix is absent exactly when every group is empty. */
  lemma {:induction false} EmptyGroupsRenderNothing(gs: seq<Group>)
    ensures !HasAnyEvidence(gs) ==> GroupsLines(gs) == []
    ensures AppendixLines(gs) == [] <==> !HasAnyEvidence(gs)
    ensures HasAnyEvidence(gs) ==> AppendixLines(gs)[..4] == AppendixHead
  {
    if gs != [] && !HasAnyEvidence(gs) {
      var init := gs[..|gs| - 1];
      assert !HasAnyEvidence(init) by {
        forall g | 0 <= g < |init| ensures init[g].refs == [] {
          assert init[g] == gs[g];
        }
      }
      EmptyGroupsRenderNothing(init);
    }
  }

  /** A group with references renders its heading, the table head and one row per reference. */
  lemma GroupBlock(g: Group)
    requires g.refs != []
    ensures var ls := GroupLines(g);
      |ls| == |g.refs| + 5 && ls[0] == "### " + g.name && ls[2] == TableHeader && ls[3] == TableRule
      && (forall i :: 0 <= i < |g.refs| ==> ls[4 + i] == RowLine(g.refs[i])) && ls[|ls| - 1] == ""
  {
    RowLinesAt(g.refs);
  }

  /** Some call offers a reference with a truthy key. */
  predicate AnyKeyedEvidence(inp: ReportInput) {
    exists j :: 0 <= j < |AllVisits(inp)| && Truthy(Key(AllVisits(inp)[j].ref))
  }

  lemma {:induction false} FirstKeyedVisit(vs: seq<Visit>, j0: nat)
    requires j0 < |vs| && Truthy(Key(vs[j0].ref))
    ensures exists j :: 0 <= j <= j0 && Truthy(Key(vs[j].ref)) && forall i :: 0 <= i < j ==> !Truthy(Key(vs[i].ref))
    decreases j0
  {
    if exists i :: 0 <= i < j0 && Truthy(Key(vs[i].ref)) {
      var i :| 0 <= i < j0 && Truthy(Key(vs[i].ref));
      FirstKeyedVisit(vs, i);
    }
  }

  /** The appendix of the report. */
  function ReportAppendix(inp: ReportInput): seq<string> {
    AppendixLines(FinalState(inp).groups)
  }

  lemma KeyedEvidenceFillsAGroup(inp: ReportInput)
    requires AnyKeyedEvidence(inp)
    ensures HasAnyEvidence(FinalState(inp).groups)
  {
    var vs := AllVisits(inp);
    var j0 :| 0 <= j0 < |vs| && Truthy(Key(vs[j0].ref));
    KeyedVisitFillsAGroup(InitialState(inp.themes), vs, j0);
  }

  lemma RowHasKey(inp: ReportInput, g: nat, i: nat)
    requires g < |FinalState(inp).groups| && i < |FinalState(inp).groups[g].refs|
    ensures Truthy(Key(FinalState(inp).groups[g].refs[i]))
  {
    AppendixRowsUnique(inp);
  }

  lemma FilledGroupHasKeyedEvidence(inp: ReportInput)
    requires HasAnyEvidence(FinalState(inp).groups)
    ensures AnyKeyedEvidence(inp)
  {
    var vs := AllVisits(inp);
    var st := FinalState(inp);
    var g :| 0 <= g < |st.groups| && st.groups[g].refs != [];
    var e := st.groups[g].refs[0];
    RowHasKey(inp, g, 0);
    RowsComeFromVisits(inp, g, e);
    var j :| 0 <= j < |vs| && vs[j] == Visit(g, e);
    assert Truthy(Key(vs[j].ref));
  }

  /**
   * The appendix is present exactly when some reference offered by the traversal has
   * a url or an id, and then it opens with its section heading.
   */
  lemma AppendixPresentIff(inp: ReportInput)
    ensures ReportAppendix(inp) != [] <==> AnyKeyedEvidence(inp)
    ensures ReportAppendix(inp) != [] ==> ReportAppendix(inp)[..4] == AppendixHead
  {
    EmptyGroupsRenderNothing(FinalState(inp).groups);
    if AnyKeyedEvidence(inp) {
      KeyedEvidenceFillsAGroup(inp);
    }
    if HasAnyEvidence(FinalState(inp).groups) {
      FilledGroupHasKeyedEvidence(inp);
    }
  }

  /** One group's block appended: heading, table head, a row per reference, blank line. */
  method PushGroup(lines: seq<string>, group: Group) returns (out: seq<string>)
    ensures out == lines + GroupLines(group)
  {
    if group.refs == [] {
      return lines;
    }
    var head := ["### " + group.name, "", TableHeader, TableRule];
    out := PushRows(lines + head, group.refs);
    out := out + [""];
    AppendAssoc(lines, head, RowLines(group.refs));
    AppendAssoc(lines, head + RowLines(group.refs), [""]);
  }

  /** A table row per reference, in order. */
  method PushRows(lines: seq<string>, refs: seq<EvidenceRef>) returns (out: seq<string>)
    ensures out == lines + RowLines(refs)
  {
    out := lines;
    for i := 0 to |refs|
      invariant out == lines + RowLines(refs[..i])
    {
      assert refs[..i + 1][..i] == refs[..i];
      AppendAssoc(lines, RowLines(refs[..i]), [RowLine(refs[i])]);
      out := out + [RowLine(refs[i])];
    }
    assert refs[..|refs|] == refs;
  }

  /** The appendix loop: `for (const { group } of themeGroups)`, after the `.some` guard. */
  method PushGroups(lines: seq<string>, groups: seq<Group>) returns (out: seq<string>)
    ensures out == lines + GroupsLines(groups)
  {
    out := lines;
    for g := 0 to |groups|
      invariant out == lines + GroupsLines(groups[..g])
    {
      ghost var prefix := groups[..g + 1];
      assert prefix[..g] == groups[..g] && prefix[g] == groups[g];
      assert GroupsLines(prefix) == GroupsLines(groups[..g]) + GroupLines(groups[g]);
      AppendAssoc(lines, GroupsLines(groups[..g]), GroupLines(groups[g]));
      out := PushGroup(out, groups[g]);
    }
    assert groups[..|groups|] == groups;
  }

  /** The appendix: nothing unless `themeGroups.some((g) => g.refs.length > 0)`. */
  method PushAppendix(lines: seq<string>, groups: seq<Group>) returns (out: seq<string>)
    ensures out == lines + AppendixLines(groups)
  {
    if !HasAnyEvidence(groups) {
      return lines;
    }
    out := PushGroups(lines + AppendixHead, groups);
  }
}
