/** The project management page: its search filter, the label a status is
    shown with and the style of its badge. */
module ProjectsPage {
  import opened Wrappers
  import opened Seqs
  import opened Text
  import opened Schema

  /** The name, or a non-empty description or project type, contains the
      query ignoring case. */
  predicate MatchesSearch(p: Project, q: string) {
    IContains(p.name, q) ||
    (p.description.Some? && p.description.value != "" && IContains(p.description.value, q)) ||
    (p.projectType.Some? && p.projectType.value != "" && IContains(p.projectType.value, q))
  }

  function Matching(q: string): Project -> bool {
    (p: Project) => MatchesSearch(p, q)
  }

  /** `filteredProjects`. */
  function FilteredProjects(ps: Option<seq<Project>>, q: string): (r: Option<seq<Project>>)
    ensures r.None? <==> ps.None?
    ensures r.Some? ==> IsSubsequence(r.value, ps.value)
    ensures r.Some? ==> forall i :: 0 <= i < |r.value| ==> MatchesSearch(r.value[i], q)
    ensures r.Some? ==> forall i :: 0 <= i < |ps.value| && MatchesSearch(ps.value[i], q) ==> ps.value[i] in r.value
  {
    match ps
    case None => None
    case Some(s) => FilterIsSubsequence(s, Matching(q)); Some(Filter(s, Matching(q)))
  }

  /** An empty query lists every project. */
  lemma EmptyQueryShowsAll(ps: seq<Project>)
    ensures FilteredProjects(Some(ps), "") == Some(ps)
  {
    forall i | 0 <= i < |ps| ensures MatchesSearch(ps[i], "") {
      IContainsEmpty(ps[i].name);
    }
    FilterAll(ps, Matching(""));
  }

  /** `status.charAt(0).toUpperCase() + status.slice(1).replace('_', ' ')`:
      the first character upper-cased and, after it, only the first '_'
      turned into a space. */
  function StatusLabel(status: string): (r: string)
    ensures |r| == |status|
    ensures status != "" ==> r[0] == UpperChar(status[0])
    ensures status != "" && '_' !in status[1..] ==> r[1..] == status[1..]
    ensures status != "" && '_' in status[1..] ==>
              var k := 1 + IndexOfChar(status[1..], '_');
              r[k] == ' ' && '_' !in status[1..k] && forall m :: 1 <= m < |status| && m != k ==> r[m] == status[m]
  {
    if status == "" then "" else
      var rest := ReplaceFirst(status[1..], '_', ' ');
      var r := [UpperChar(status[0])] + rest;
      assert r[1..] == rest;
      r
  }

  const BlueStyle := "bg-blue-100 text-blue-800 border-blue-200"
  const GreenStyle := "bg-green-100 text-green-800 border-green-200"
  const RedStyle := "bg-red-100 text-red-800 border-red-200"
  const YellowStyle := "bg-yellow-100 text-yellow-800 border-yellow-200"
  const GrayStyle := "bg-gray-100 text-gray-800 border-gray-200"

  /** `getStatusBadgeStyle`: one style per project status, gray for any other
      text. */
  function BadgeStyle(status: string): (r: string)
    ensures ParseProjectStatus(status).None? <==> r == GrayStyle
    ensures status == ProjectStatusName(Active) <==> r == BlueStyle
    ensures status == ProjectStatusName(OnHold) <==> r == YellowStyle
    ensures status == ProjectStatusName(Completed) <==> r == GreenStyle
    ensures status == ProjectStatusName(Cancelled) <==> r == RedStyle
  {
    match status
    case "active" => BlueStyle
    case "completed" => GreenStyle
    case "cancelled" => RedStyle
    case "on_hold" => YellowStyle
    case _ => GrayStyle
  }

  /** Different statuses get different styles. */
  lemma BadgeStylesDistinct(a: ProjectStatus, b: ProjectStatus)
    requires a != b
    ensures BadgeStyle(ProjectStatusName(a)) != BadgeStyle(ProjectStatusName(b))
  {
  }
}
