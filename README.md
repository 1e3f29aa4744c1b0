# Student portfolio: project filter, page router and resume link

A model of the only decision-making parts of a single-page Streamlit student portfolio
(`student-portfolio.py`):

- **Project filter** (`project_filter.dfy`, module `ProjectFilter`). The Projects view
  offers six categories in a selectbox. Its nested `show_project` renders a project card
  only when a six-way test holds. "All Projects" matches every project. "Year N Projects"
  matches `year == N`. "Group Projects" matches the group flag. "Dissertation" matches when
  the case-sensitive text "Dissertation" occurs in the project type. The view calls
  `show_project` on four hard-coded projects, one after another. The model keeps the
  selection as the string the selectbox returns, and the test `Admits` compares it with the
  same literals the source uses. `Filter` is the list shown for any list of projects.
  `ProjectsView` is the view's output as it is emitted: each `ShowProject` call appends
  one card or nothing. `RenderProjects` makes the four calls of the source, in order, and
  is proved equal to `Filter` on the seed list. The lemmas then state what each category
  admits, that the output is an order-preserving selection of exactly the admitted
  positions, and what each category shows on the seed data.
- **Page router** (`navigation.dfy`, module `Navigation`). The sidebar radio offers seven
  views. An `if`/`elif` chain renders the first branch whose literal equals the selection.
  The model keeps the radio list (`NavOptions`) and the branch literals (`BranchGuards`)
  as two constants. The chain is `FirstMatch` over the branch literals. The lemmas show
  that the two lists agree position by position and that the guards are distinct, so each
  radio choice runs exactly one branch. They also show that a view's label routes back to
  that view.
- **Resume link** (`resume.dfy`, module `Resume`). `get_base64_download_link` either
  returns an HTML anchor around the base64 text of the resume, or returns the fixed text
  "Resume file not found" when the file does not exist. The Home view shows the anchor when
  the result differs from that text. Otherwise it shows a warning and an upload control.
  The file read is an abstract outcome (`Read(data)` or `FileNotFound`), and base64 is the
  function parameter `encode`. The lemmas show that an anchor can never equal the
  not-found text, so the view shows the link exactly when the read succeeded.

`wrappers.dfy` holds the `Option` type used for Python's `None` defaults.

## Model

| member | source | states |
|---|---|---|
| `ProjectFilter.YearFilter` | student-portfolio.py:126 | each year filter label is one of the selectbox's six choices |
| `ProjectFilter.FilterOptionsDistinct` | student-portfolio.py:126 | the six category labels are pairwise different, so at most one clause of the test can fire |
| `ProjectFilter.ContainsFirstChar` | student-portfolio.py:136 | a non-empty text can only occur as a substring of a type that contains its first character |
| `ProjectFilter.NoMarkerWithoutD` | student-portfolio.py:136 | a project type without a capital D never contains "Dissertation" |
| `ProjectFilter.Contains` | student-portfolio.py:136 | Python's substring `in`: the empty text occurs in every type, an occurrence needs a type at least as long as the text, and a prefix always occurs |
| `ProjectFilter.Admits` | student-portfolio.py:131-136 | the six-way test of `show_project`; it admits a project only when the selection is one of the six choices |
| `ProjectFilter.AllAdmitsEvery` | student-portfolio.py:131 | "All Projects" admits every project, whatever its year, group flag or type |
| `ProjectFilter.YearFilterAdmits` | student-portfolio.py:130-134 | the year-N filter admits a project exactly when its year is N; a project without a year is admitted by no year filter |
| `ProjectFilter.GroupFilterAdmits` | student-portfolio.py:135 | "Group Projects" admits a project exactly when its group flag is set |
| `ProjectFilter.DissertationFilterAdmits` | student-portfolio.py:136 | "Dissertation" admits a project exactly when "Dissertation" occurs, case-sensitively, at some position of its type |
| `ProjectFilter.UnlistedFilterAdmitsNothing` | student-portfolio.py:124-136 | a selection outside the six choices would admit no project |
| `ProjectFilter.Filter` | student-portfolio.py:130-144 | calling `show_project` on each project of a list shows no more projects than the list holds |
| `ProjectFilter.FilterMembers` | student-portfolio.py:130-144 | a project is shown exactly when it is in the list and the test admits it |
| `ProjectFilter.FilterIsOrderedSelection` | student-portfolio.py:147-184 | the shown list is the input at strictly increasing positions (no reordering, no position twice), and a position is picked exactly when its project is admitted |
| `ProjectFilter.AllShowsEverything` | student-portfolio.py:131 | with "All Projects" the shown list is the whole input, in order |
| `ProjectFilter.FilterFour` | student-portfolio.py:147-184 | four consecutive calls show the admitted ones among the four projects, in call order |
| `ProjectFilter.Titles` | student-portfolio.py:139 | the titles of the shown projects, position by position |
| `ProjectFilter.DataAnalysisAdmits` | student-portfolio.py:147-154 | the first seed project is shown exactly under "All Projects" and "Year 2 Projects" |
| `ProjectFilter.AiChatbotAdmits` | student-portfolio.py:157-164 | the second seed project is shown exactly under "All Projects", "Year 3 Projects" and "Group Projects" |
| `ProjectFilter.CaritasWebsiteAdmits` | student-portfolio.py:167-174 | the third seed project is shown exactly under "All Projects" and "Year 2 Projects" |
| `ProjectFilter.SmartAgricultureAdmits` | student-portfolio.py:177-184 | the fourth seed project is shown exactly under "All Projects", "Year 3 Projects" and "Dissertation" |
| `ProjectFilter.SeedAll` | student-portfolio.py:147-184 | "All Projects" shows all four seed projects in order |
| `ProjectFilter.SeedYear1` | student-portfolio.py:147-184 | "Year 1 Projects" shows nothing |
| `ProjectFilter.SeedYear2` | student-portfolio.py:147-184 | "Year 2 Projects" shows Data Analysis Project, then Caritas CDJP Gikongoro Website |
| `ProjectFilter.SeedYear3` | student-portfolio.py:147-184 | "Year 3 Projects" shows AI Chatbot, then Smart Agriculture Monitoring System |
| `ProjectFilter.SeedGroup` | student-portfolio.py:147-184 | "Group Projects" shows only AI Chatbot |
| `ProjectFilter.SeedDissertation` | student-portfolio.py:147-184 | "Dissertation" shows only Smart Agriculture Monitoring System |
| `ProjectFilter.ProjectsView.constructor` | student-portfolio.py:118-127 | the view starts with the selected category and no cards shown |
| `ProjectFilter.ProjectsView.ShowProject` | student-portfolio.py:130-144 | one call appends its project's card exactly when the test admits it, and otherwise leaves the output unchanged |
| `ProjectFilter.RenderProjects` | student-portfolio.py:146-184 | the four calls in source order show exactly `Filter` of the selection over the seed list |
| `Navigation.BranchIndex` | student-portfolio.py:79-361 | every view has a branch position in the chain, and that position holds that view |
| `Navigation.Label` | student-portfolio.py:65 | every view's label is one of the seven radio choices |
| `Navigation.GuardsAreOptions` | student-portfolio.py:65-361 | the seven literals the branches test (lines 79, 118, 188, 223, 292, 325 and 361) are, position by position, the seven radio choices |
| `Navigation.BranchIndexOf` | student-portfolio.py:79-361 | the branch position of the view at position k is k |
| `Navigation.FirstMatch` | student-portfolio.py:79-361 | the chain runs the first branch whose label equals the selection, no earlier label equals it, and no branch runs exactly when no label equals it |
| `Navigation.Route` | student-portfolio.py:65-361 | a view is rendered exactly when the selection is one of the seven choices, and the rendered view is the one labelled with the selection |
| `Navigation.GuardsDistinct` | student-portfolio.py:79-361 | the seven branch guards are pairwise different, so the branch tests are mutually exclusive |
| `Navigation.ExactlyOneBranch` | student-portfolio.py:65-361 | each of the seven radio choices equals exactly one branch guard, and the chain renders that branch's view |
| `Navigation.RouteLabel` | student-portfolio.py:65-361 | selecting a view's label renders that view |
| `Resume.DownloadLink` | student-portfolio.py:68-76 | a missing file gives "Resume file not found"; a successful read gives a text that starts with `<a href="data:application/pdf;base64,` followed by the encoded file |
| `Resume.HomeResumeArea` | student-portfolio.py:103-107 | the Home view shows the helper's text unchanged exactly when it differs from "Resume file not found", and otherwise shows the warning with the upload control |
| `Resume.HomeResume` | student-portfolio.py:102-107 | a missing file gives the warning with the upload control; a successful read gives a shown link that starts with the anchor prefix |
| `Resume.LinkIsNeverNotFound` | student-portfolio.py:73-76 | no successful read, whatever the data, file name or encoder, yields the not-found text |
| `Resume.HomeShowsLinkIffRead` | student-portfolio.py:102-107 | the Home view shows the anchor, unchanged, exactly when the read succeeded, and shows the warning with the upload control exactly when the file was missing |

## Left out

- Streamlit rendering is not modelled: the page configuration, the CSS, titles, markdown, columns, images, sliders and progress bars, and the sidebar footer. These are calls into the UI toolkit and contain no logic.
- The card's contents are not modelled. A `Project` keeps only the title, type, year and group flag. The description and the link are left out. So is the `if link:` line under a card, because the link does not affect which cards are shown.
- Opening and reading `resume.pdf` is not modelled (file I/O). The model takes the read's outcome as input.
- `base64.b64encode(...).decode()` is not modelled (a library call). The encoder is a function parameter, and every statement holds for any encoder.
- Errors other than a missing file are not modelled. In the source, `open` can also fail for other reasons, such as a permission error, and the helper then raises instead of returning. The read outcome in the model has only the two cases the helper handles.
- The file uploaders are not modelled. The profile-picture uploaders (student-portfolio.py:87, :330) only show the chosen image back, and on Settings a success message. The resume uploaders (:107, :354) are never read. None of them affects the filter, the router or the resume link.
- The Testimonials, Settings and Contact forms are not modelled. They store nothing and only show a fixed acknowledgment.
- The Skills view and the timeline loop are not modelled. The Skills view shows each slider's current value in a progress bar. The timeline loop formats static data.
- Each view body other than the Projects list and the resume area is not modelled. `Route` only says which branch runs.
- In the source, `year` is a keyword argument of `show_project` that defaults to `None` (student-portfolio.py:130). So `Project.year` is `Option<int>`, and the year lemmas hold for any integer.
