/** The home page's project showcase: filtering the projects by industry, status and a
    search query, and the colour of a project's status badge. */
module Showcase {
  import opened Values

  datatype Project = Project(
    id: int, name: string, description: string, industry: string, status: string,
    roi: string, modelsDeployed: int, thumbnailUrl: string, redirectUrl: Option<string>)

  const AllIndustries := "All Industries"
  const AllStatuses := "All Statuses"

  /** The filter callback: three early returns of `false`, then `true`. */
  predicate Kept(selectedIndustry: string, selectedStatus: string, query: string, p: Project) {
    if selectedIndustry != AllIndustries && p.industry != selectedIndustry then false
    else if selectedStatus != AllStatuses && p.status != selectedStatus then false
    else if query != "" && !Includes(Lower(p.name), Lower(query)) && !Includes(Lower(p.description), Lower(query)) then false
    else true
  }

  /** `filteredProjects`. */
  function FilteredProjects(projects: seq<Project>, selectedIndustry: string, selectedStatus: string, query: string): seq<Project> {
    Filter(projects, p => Kept(selectedIndustry, selectedStatus, query, p))
  }

  /** The filtered projects keep their order and are exactly the projects the three
      selections let through, each as often as it occurs in the list. */
  lemma FilteredIsOrderedSelection(projects: seq<Project>, selectedIndustry: string, selectedStatus: string, query: string)
    ensures IsSubsequence(FilteredProjects(projects, selectedIndustry, selectedStatus, query), projects)
    ensures forall p :: p in projects ==>
      (p in FilteredProjects(projects, selectedIndustry, selectedStatus, query) <==> Kept(selectedIndustry, selectedStatus, query, p))
    ensures forall p :: Kept(selectedIndustry, selectedStatus, query, p) ==>
      multiset(FilteredProjects(projects, selectedIndustry, selectedStatus, query))[p] == multiset(projects)[p]
  {
    var f := FilteredProjects(projects, selectedIndustry, selectedStatus, query);
    forall p | Kept(selectedIndustry, selectedStatus, query, p) ensures multiset(f)[p] == multiset(projects)[p] {
      FilterCount(projects, p => Kept(selectedIndustry, selectedStatus, query, p), p);
    }
    forall p | p in projects ensures p in f <==> Kept(selectedIndustry, selectedStatus, query, p) {
      if p in f {
        var i :| 0 <= i < |f| && f[i] == p;
      }
    }
  }

  /** The three initial selections show every project. */
  lemma InitialSelectionShowsAll(projects: seq<Project>)
    ensures FilteredProjects(projects, AllIndustries, AllStatuses, "") == projects
  {
    FilterKeepsAll(projects, p => Kept(AllIndustries, AllStatuses, "", p));
  }

  /** A shown project has the selected industry and status (unless the selection is the
      "All" entry) and, for a non-empty query, contains it in its lower-cased name or
      description. */
  lemma ShownMatch(projects: seq<Project>, selectedIndustry: string, selectedStatus: string, query: string, p: Project)
    requires p in FilteredProjects(projects, selectedIndustry, selectedStatus, query)
    ensures selectedIndustry != AllIndustries ==> p.industry == selectedIndustry
    ensures selectedStatus != AllStatuses ==> p.status == selectedStatus
    ensures query != "" ==> Includes(Lower(p.name), Lower(query)) || Includes(Lower(p.description), Lower(query))
  {
    var f := FilteredProjects(projects, selectedIndustry, selectedStatus, query);
    var i :| 0 <= i < |f| && f[i] == p;
  }

  /** `getStatusColor`. */
  function StatusColor(status: string): string {
    match status
    case "Live" => "bg-teal-500"
    case "In Development" => "bg-coral-500"
    case "Completed" => "bg-navy-500"
    case _ => "bg-navy-300"
  }

  /** The three statuses get three different colours, none of them the fallback, which
      every other status gets. */
  lemma StatusColorCases(status: string)
    ensures StatusColor("Live") != StatusColor("In Development")
    ensures StatusColor("In Development") != StatusColor("Completed")
    ensures StatusColor("Completed") != StatusColor("Live")
    ensures StatusColor(status) == "bg-navy-300" <==> status !in {"Live", "In Development", "Completed"}
  {
  }
}
