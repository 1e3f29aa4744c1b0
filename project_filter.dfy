/**
  The Projects view: the category selector, the match condition of `show_project`
  and the four hard-coded projects it is applied to, in call order.
 */
module ProjectFilter {
  import opened Wrappers

  /** The arguments of one `show_project` call that decide or identify what is shown.
      `year` defaults to `None` and `isGroup` to false. */
  datatype Project = Project(
    title: string,
    projectType: string,
    year: Option<int>,
    isGroup: bool)

  /** The six choices of the category selectbox, in the order it lists them. */
  const AllProjects := "All Projects"
  const Year1Projects := "Year 1 Projects"
  const Year2Projects := "Year 2 Projects"
  const Year3Projects := "Year 3 Projects"
  const GroupProjects := "Group Projects"
  const DissertationFilter := "Dissertation"

  const FilterOptions: seq<string> :=
    [AllProjects, Year1Projects, Year2Projects, Year3Projects, GroupProjects, DissertationFilter]

  /** The literal searched for in the project type under the "Dissertation" filter. */
  const DissertationMarker := "Dissertation"

  /** The year filter label for year `n`. */
  function YearFilter(n: int): (option: string)
    requires 1 <= n <= 3
    ensures option in FilterOptions
  {
    if n == 1 then Year1Projects else if n == 2 then Year2Projects else Year3Projects
  }

  // ---------------------------------------------------------------------------
  // Substring test (Python's `needle in hay` on strings, case-sensitive)
  // ---------------------------------------------------------------------------

  /** `needle` is the block of `hay` starting at index `i`. */
  predicate OccursAt(needle: string, hay: string, i: int) {
    0 <= i && i + |needle| <= |hay| && hay[i..i + |needle|] == needle
  }

  /** Whether `needle` occurs somewhere in `hay`; the empty needle occurs in every text. */
  predicate Contains(hay: string, needle: string): (r: bool)
    ensures needle == [] ==> r
    ensures r ==> |needle| <= |hay|
    ensures needle <= hay ==> r
  {
    assert needle <= hay ==> OccursAt(needle, hay, 0);
    exists i | 0 <= i <= |hay| - |needle| :: OccursAt(needle, hay, i)
  }

  /** A non-empty needle can only occur in a text that contains its first character. */
  lemma ContainsFirstChar(hay: string, needle: string)
    requires |needle| > 0 && Contains(hay, needle)
    ensures needle[0] in hay
  {
  }

  // ---------------------------------------------------------------------------
  // The match condition of show_project
  // ---------------------------------------------------------------------------

  /** Whether `show_project` renders project `p` under the selected `filter`. */
  predicate Admits(filter: string, p: Project): (r: bool)
    ensures r ==> filter in FilterOptions
  {
    || filter == AllProjects
    || (filter == Year1Projects && p.year == Some(1))
    || (filter == Year2Projects && p.year == Some(2))
    || (filter == Year3Projects && p.year == Some(3))
    || (filter == GroupProjects && p.isGroup)
    || (filter == DissertationFilter && Contains(p.projectType, DissertationMarker))
  }

  /** The six selector labels are pairwise different, so at most one clause of the
      match condition can fire for a given selection. */
  lemma FilterOptionsDistinct()
    ensures forall i, j :: 0 <= i < j < |FilterOptions| ==> FilterOptions[i] != FilterOptions[j]
  {
  }

  /** "All Projects" admits every project, whatever its year, group flag or type. */
  lemma AllAdmitsEvery(p: Project)
    ensures Admits(AllProjects, p)
  {
  }

  /** A year filter admits a project exactly when its year is that one; a project
      without a year is admitted by no year filter. */
  lemma YearFilterAdmits(n: int, p: Project)
    requires 1 <= n <= 3
    ensures Admits(YearFilter(n), p) <==> p.year == Some(n)
    ensures p.year.None? ==> !Admits(YearFilter(n), p)
  {
  }

  /** "Group Projects" admits exactly the group projects. */
  lemma GroupFilterAdmits(p: Project)
    ensures Admits(GroupProjects, p) <==> p.isGroup
  {
  }

  /** "Dissertation" admits exactly the projects whose type contains the literal,
      case-sensitive text "Dissertation" somewhere. */
  lemma DissertationFilterAdmits(p: Project)
    ensures Admits(DissertationFilter, p) <==> exists i :: OccursAt(DissertationMarker, p.projectType, i)
  {
  }

  /** A label outside the selector's list admits nothing. */
  lemma UnlistedFilterAdmitsNothing(filter: string, p: Project)
    requires filter !in FilterOptions
    ensures !Admits(filter, p)
  {
  }

  // ---------------------------------------------------------------------------
  // Applying the condition to a list of projects, in call order
  // ---------------------------------------------------------------------------

  /** The projects shown when `show_project` is called on `ps` one after another:
      each call appends its project when the condition holds. */
  function Filter(filter: string, ps: seq<Project>): (shown: seq<Project>)
    ensures |shown| <= |ps|
  {
    if ps == [] then []
    else Filter(filter, ps[..|ps| - 1]) + (if Admits(filter, ps[|ps| - 1]) then [ps[|ps| - 1]] else [])
  }

  /** A project is shown exactly when it is in the input and the test admits it. */
  lemma {:induction false} FilterMembers(filter: string, ps: seq<Project>)
    ensures forall p :: p in Filter(filter, ps) <==> p in ps && Admits(filter, p)
  {
    if ps != [] {
      var init, last := ps[..|ps| - 1], ps[|ps| - 1];
      FilterMembers(filter, init);
      assert ps == init + [last];
    }
  }

  /** The positions in `ps` of the projects that are shown, in increasing order. */
  ghost function Picks(filter: string, ps: seq<Project>): seq<int> {
    if ps == [] then []
    else Picks(filter, ps[..|ps| - 1]) + (if Admits(filter, ps[|ps| - 1]) then [|ps| - 1] else [])
  }

  /** `shown` lists the elements of `ps` at the strictly increasing positions `idx`. */
  ghost predicate OrderedSelection(shown: seq<Project>, ps: seq<Project>, idx: seq<int>) {
    && |idx| == |shown|
    && (forall k :: 0 <= k < |idx| ==> 0 <= idx[k] < |ps| && shown[k] == ps[idx[k]])
    && (forall j, k :: 0 <= j < k < |idx| ==> idx[j] < idx[k])
  }

  /** The shown list is an order-preserving subsequence of the input: each position
      at most once, never reordered, and exactly the admitted positions. */
  lemma {:induction false} FilterIsOrderedSelection(filter: string, ps: seq<Project>)
    ensures OrderedSelection(Filter(filter, ps), ps, Picks(filter, ps))
    ensures forall i :: 0 <= i < |ps| ==> (i in Picks(filter, ps) <==> Admits(filter, ps[i]))
  {
    if ps != [] {
      var init, last := ps[..|ps| - 1], ps[|ps| - 1];
      FilterIsOrderedSelection(filter, init);
      assert forall i :: 0 <= i < |init| ==> init[i] == ps[i];
    }
  }

  /** With "All Projects" the whole list is shown, in order. */
  lemma {:induction false} AllShowsEverything(ps: seq<Project>)
    ensures Filter(AllProjects, ps) == ps
  {
    if ps != [] {
      var init, last := ps[..|ps| - 1], ps[|ps| - 1];
      AllShowsEverything(init);
      assert Filter(AllProjects, ps) == init + [last];
      assert ps == init + [last];
    }
  }

  // ---------------------------------------------------------------------------
  // The seed data and the view that renders it
  // ---------------------------------------------------------------------------

  /** The four hard-coded projects, one constant per `show_project` call. */
  const DataAnalysis := Project(
    "Data Analysis Project",
    "Year 2, Individual Project",
    Some(2),
    false)

  const AiChatbot := Project(
    "AI Chatbot",
    "Year 3, Group Project",
    Some(3),
    true)

  const CaritasWebsite := Project(
    "Caritas CDJP Gikongoro Website",
    "Year 2, Internship Project",
    Some(2),
    false)

  const SmartAgriculture := Project(
    "Smart Agriculture Monitoring System",
    "Year 3, Dissertation Project",
    Some(3),
    false)

  /** The seed projects in the order the view passes them to `show_project`. */
  const SeedProjects: seq<Project> := [DataAnalysis, AiChatbot, CaritasWebsite, SmartAgriculture]

  /** The titles of a list of projects, in order. */
  function Titles(ps: seq<Project>): (ts: seq<string>)
    ensures |ts| == |ps|
    ensures forall k :: 0 <= k < |ps| ==> ts[k] == ps[k].title
  {
    if ps == [] then [] else [ps[0].title] + Titles(ps[1..])
  }

  /** One more `show_project` call extends the shown list by at most that project. */
  lemma FilterSnoc(filter: string, init: seq<Project>, last: Project)
    ensures Filter(filter, init + [last])
            == Filter(filter, init) + (if Admits(filter, last) then [last] else [])
  {
  }

  /** Four consecutive `show_project` calls, spelled out. */
  lemma FilterFour(filter: string, ps: seq<Project>)
    requires |ps| == 4
    ensures Filter(filter, ps)
            == (if Admits(filter, ps[0]) then [ps[0]] else [])
             + (if Admits(filter, ps[1]) then [ps[1]] else [])
             + (if Admits(filter, ps[2]) then [ps[2]] else [])
             + (if Admits(filter, ps[3]) then [ps[3]] else [])
  {
    FilterSnoc(filter, [], ps[0]);
    FilterSnoc(filter, [ps[0]], ps[1]);
    assert [ps[0]] + [ps[1]] == ps[..2];
    FilterSnoc(filter, ps[..2], ps[2]);
    assert ps[..2] + [ps[2]] == ps[..3];
    FilterSnoc(filter, ps[..3], ps[3]);
    assert ps[..3] + [ps[3]] == ps;
  }

  /** A type without a capital D cannot contain "Dissertation". */
  lemma NoMarkerWithoutD(projectType: string)
    requires 'D' !in projectType
    ensures !Contains(projectType, DissertationMarker)
  {
    if Contains(projectType, DissertationMarker) {
      ContainsFirstChar(projectType, DissertationMarker);
    }
  }

  /** Which selector choices show each seed project. Only the fourth seed project's
      type contains "Dissertation"; the other three have no capital D at all. */
  lemma DataAnalysisAdmits(filter: string)
    ensures Admits(filter, DataAnalysis) <==> filter == AllProjects || filter == Year2Projects
  {
    NoMarkerWithoutD(DataAnalysis.projectType);
  }

  lemma AiChatbotAdmits(filter: string)
    ensures Admits(filter, AiChatbot)
            <==> filter == AllProjects || filter == Year3Projects || filter == GroupProjects
  {
    NoMarkerWithoutD(AiChatbot.projectType);
  }

  lemma CaritasWebsiteAdmits(filter: string)
    ensures Admits(filter, CaritasWebsite) <==> filter == AllProjects || filter == Year2Projects
  {
    NoMarkerWithoutD(CaritasWebsite.projectType);
  }

  lemma SmartAgricultureAdmits(filter: string)
    ensures Admits(filter, SmartAgriculture)
            <==> filter == AllProjects || filter == Year3Projects || filter == DissertationFilter
  {
    var hay := SmartAgriculture.projectType;
    assert hay[8..8 + |DissertationMarker|] == DissertationMarker;
    assert OccursAt(DissertationMarker, hay, 8);
  }

  /** "All Projects" on the seed data shows all four projects. */
  lemma SeedAll()
    ensures Filter(AllProjects, SeedProjects) == SeedProjects
  {
    AllShowsEverything(SeedProjects);
  }

  /** "Year 1 Projects" on the seed data shows nothing. */
  lemma SeedYear1()
    ensures Filter(Year1Projects, SeedProjects) == []
  {
    assert Year1Projects[5] != Year2Projects[5] && Year1Projects[5] != Year3Projects[5];
    FilterFour(Year1Projects, SeedProjects);
    DataAnalysisAdmits(Year1Projects);
    AiChatbotAdmits(Year1Projects);
    CaritasWebsiteAdmits(Year1Projects);
    SmartAgricultureAdmits(Year1Projects);
  }

  /** "Year 2 Projects" on the seed data shows the two year-2 projects, in order. */
  lemma SeedYear2()
    ensures Titles(Filter(Year2Projects, SeedProjects))
            == ["Data Analysis Project", "Caritas CDJP Gikongoro Website"]
  {
    assert Year2Projects[5] != Year3Projects[5];
    FilterFour(Year2Projects, SeedProjects);
    DataAnalysisAdmits(Year2Projects);
    AiChatbotAdmits(Year2Projects);
    CaritasWebsiteAdmits(Year2Projects);
    SmartAgricultureAdmits(Year2Projects);
  }

  /** "Year 3 Projects" on the seed data shows the two year-3 projects, in order. */
  lemma SeedYear3()
    ensures Titles(Filter(Year3Projects, SeedProjects))
            == ["AI Chatbot", "Smart Agriculture Monitoring System"]
  {
    assert Year2Projects[5] != Year3Projects[5];
    FilterFour(Year3Projects, SeedProjects);
    DataAnalysisAdmits(Year3Projects);
    AiChatbotAdmits(Year3Projects);
    CaritasWebsiteAdmits(Year3Projects);
    SmartAgricultureAdmits(Year3Projects);
  }

  /** "Group Projects" on the seed data shows only the chatbot. */
  lemma SeedGroup()
    ensures Titles(Filter(GroupProjects, SeedProjects)) == ["AI Chatbot"]
  {
    FilterFour(GroupProjects, SeedProjects);
    DataAnalysisAdmits(GroupProjects);
    AiChatbotAdmits(GroupProjects);
    CaritasWebsiteAdmits(GroupProjects);
    SmartAgricultureAdmits(GroupProjects);
  }

  /** "Dissertation" on the seed data shows only the agriculture system. */
  lemma SeedDissertation()
    ensures Titles(Filter(DissertationFilter, SeedProjects)) == ["Smart Agriculture Monitoring System"]
  {
    FilterFour(DissertationFilter, SeedProjects);
    DataAnalysisAdmits(DissertationFilter);
    AiChatbotAdmits(DissertationFilter);
    CaritasWebsiteAdmits(DissertationFilter);
    SmartAgricultureAdmits(DissertationFilter);
  }

  /** The Projects view while it renders: the selected filter (captured by the nested
      `show_project`) and the cards emitted so far. */
  class ProjectsView {
    const filter: string
    var shown: seq<Project>

    constructor (filter: string)
      ensures this.filter == filter && shown == []
    {
      this.filter := filter;
      shown := [];
    }

    /** One call of `show_project`: emits the card when the condition holds. */
    method ShowProject(p: Project)
      modifies this
      ensures shown == old(shown) + (if Admits(filter, p) then [p] else [])
    {
      if Admits(filter, p) {
        shown := shown + [p];
      }
    }
  }

  /** The Projects view: the four `show_project` calls on the seed projects,
      in source order. */
  method RenderProjects(filter: string) returns (shown: seq<Project>)
    ensures shown == Filter(filter, SeedProjects)
  {
    // Not needed for the proof; they keep its solver cost low and stable across seeds.
    DataAnalysisAdmits(filter);
    AiChatbotAdmits(filter);
    CaritasWebsiteAdmits(filter);
    SmartAgricultureAdmits(filter);
    var view := new ProjectsView(filter);
    view.ShowProject(DataAnalysis);
    view.ShowProject(AiChatbot);
    view.ShowProject(CaritasWebsite);
    view.ShowProject(SmartAgriculture);
    shown := view.shown;
    FilterFour(filter, SeedProjects);
  }
}
