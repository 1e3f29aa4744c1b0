/**
  The sidebar navigation: a radio control with seven fixed choices, and the
  `if`/`elif` chain that renders the view for the selected choice.
 */
module Navigation {
  import opened Wrappers

  /** The seven view renderers, in the order the chain tests them. */
  datatype View = Home | Projects | Skills | Timeline | Testimonials | Settings | Contact

  /** The choices of the navigation radio control, in the order it lists them. */
  const NavOptions: seq<string> :=
    ["Home", "Projects", "Skills", "Timeline", "Testimonials", "Settings", "Contact"]

  /** The literals the branches of the chain compare the selection with, branch by branch. */
  const BranchGuards: seq<string> :=
    ["Home", "Projects", "Skills", "Timeline", "Testimonials", "Settings", "Contact"]

  /** The view rendered by each branch, branch by branch. */
  const Branches: seq<View> := [Home, Projects, Skills, Timeline, Testimonials, Settings, Contact]

  /** The position of a view's branch in the chain. */
  function BranchIndex(v: View): (k: nat)
    ensures k < |Branches| && Branches[k] == v
  {
    match v
    case Home => 0
    case Projects => 1
    case Skills => 2
    case Timeline => 3
    case Testimonials => 4
    case Settings => 5
    case Contact => 6
  }

  /** The navigation label of a view: the radio choice listed at its branch's position. */
  function Label(v: View): (option: string)
    ensures option in NavOptions
  {
    NavOptions[BranchIndex(v)]
  }

  /** An `if`/`elif` chain of equality tests against `guards`: the index of the first
      guard equal to `page`, or `None` when no branch runs. */
  function FirstMatch(page: string, guards: seq<string>): (k: Option<nat>)
    ensures k.None? <==> page !in guards
    ensures k.Some? ==> k.value < |guards| && guards[k.value] == page
    ensures k.Some? ==> forall j :: 0 <= j < k.value ==> guards[j] != page
  {
    if guards == [] then None
    else if guards[0] == page then Some(0)
    else match FirstMatch(page, guards[1..])
      case None => None
      case Some(k) => Some(k + 1)
  }

  /** The view the page renders for the selected navigation choice. */
  function Route(page: string): (v: Option<View>)
    ensures v.Some? <==> page in NavOptions
    ensures v.Some? ==> Label(v.value) == page
  {
    GuardsAreOptions();
    match FirstMatch(page, BranchGuards)
    case None => None
    case Some(k) =>
      BranchIndexOf(k);
      Some(Branches[k])
  }

  /** Every branch guard is spelled like the radio choice at the same position. */
  lemma GuardsAreOptions()
    ensures |BranchGuards| == |NavOptions| == |Branches|
    ensures forall i :: 0 <= i < |BranchGuards| ==> BranchGuards[i] == NavOptions[i]
  {
  }

  /** `BranchIndex` inverts `Branches`. */
  lemma BranchIndexOf(k: nat)
    requires k < |Branches|
    ensures BranchIndex(Branches[k]) == k
  {
  }

  /** The seven branch guards are pairwise different: the branch tests are mutually exclusive. */
  lemma GuardsDistinct()
    ensures forall i, j :: 0 <= i < j < |BranchGuards| ==> BranchGuards[i] != BranchGuards[j]
  {
  }

  /** Each navigation choice selects exactly one branch: one guard equals it, every
      other guard differs from it, and the chain renders that branch's view. */
  lemma ExactlyOneBranch(page: string)
    requires page in NavOptions
    ensures exists i :: 0 <= i < |BranchGuards| && BranchGuards[i] == page
    ensures forall i, j ::
              (0 <= i < |BranchGuards| && 0 <= j < |BranchGuards| && BranchGuards[i] == page && BranchGuards[j] == page)
              ==> i == j
    ensures forall i :: 0 <= i < |BranchGuards| && BranchGuards[i] == page ==> Route(page) == Some(Branches[i])
  {
  }

  /** Selecting a view's label renders that view. */
  lemma RouteLabel(v: View)
    ensures Route(Label(v)) == Some(v)
  {
  }
}
