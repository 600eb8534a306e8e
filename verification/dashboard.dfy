/**
  The dashboard: the capability-gated project list, the navigation and
  sections each capability shows, and the home section's statistics.
 */
module Dashboard {
  import opened Wrappers
  import opened Text
  import opened Entitlements

  /** A project as the dashboard lists it: counts of tasks and members, not the tasks. */
  datatype ProjectCard = ProjectCard(id: int, name: string, status: string, tasks: int, members: int)

  const ActiveStatus: string := "active"

  /** The name `New Project ${n}`. */
  function NewProjectName(n: nat): (name: string)
    ensures |name| > 12 && name[..12] == "New Project "
    ensures IsDigits(name[12..]) && ParseDecimal(name[12..]) == n
    ensures |name| == 13 || name[12] != '0'
  {
    DecimalRoundTrip(n);
    var name := "New Project " + DecimalString(n);
    assert name[12..] == DecimalString(n);
    name
  }

  /** `deleteProject`: only an Admin may delete; then every card with that id goes. */
  function DeleteProject(ps: seq<ProjectCard>, s: Settings, id: int): (r: seq<ProjectCard>)
    ensures !CanDeleteProject(s) ==> r == ps
    ensures CanDeleteProject(s) ==> forall q :: q in r <==> q in ps && q.id != id
    ensures |r| <= |ps|
  {
    if CanDeleteProject(s) then RemoveId(ps, id) else ps
  }

  /** `projects.filter(p => p.id !== id)`. */
  function RemoveId(ps: seq<ProjectCard>, id: int): (r: seq<ProjectCard>)
    ensures |r| <= |ps|
    ensures forall q :: q in r <==> q in ps && q.id != id
  {
    if ps == [] then []
    else if ps[0].id == id then RemoveId(ps[1..], id)
    else [ps[0]] + RemoveId(ps[1..], id)
  }

  /** Removing by id keeps order: it works piecewise on a concatenation. */
  lemma {:induction false} RemoveIdDistributes(a: seq<ProjectCard>, b: seq<ProjectCard>, id: int)
    ensures RemoveId(a + b, id) == RemoveId(a, id) + RemoveId(b, id)
  {
    if a != [] {
      assert (a + b)[1..] == a[1..] + b;
      RemoveIdDistributes(a[1..], b, id);
    } else {
      assert a + b == b;
    }
  }

  /** `createProject`: only an Admin may create; the new card is active, empty, with one member. */
  function CreateProject(ps: seq<ProjectCard>, s: Settings, freshId: int): (r: seq<ProjectCard>)
    ensures !CanCreateProject(s) ==> r == ps
    ensures CanCreateProject(s) ==>
      && |r| == |ps| + 1 && r[..|ps|] == ps
      && r[|ps|].id == freshId && r[|ps|].status == ActiveStatus
      && r[|ps|].tasks == 0 && r[|ps|].members == 1
      && |r[|ps|].name| > 12 && r[|ps|].name[..12] == "New Project "
      && IsDigits(r[|ps|].name[12..]) && ParseDecimal(r[|ps|].name[12..]) == |r|
      && (|r[|ps|].name| == 13 || r[|ps|].name[12] != '0')
  {
    if CanCreateProject(s) then
      ps + [ProjectCard(freshId, NewProjectName(|ps| + 1), ActiveStatus, 0, 1)]
    else
      ps
  }

  /** Lists of different lengths give their new projects different names. */
  lemma NewProjectNamesDistinct(m: nat, n: nat)
    ensures NewProjectName(m) == NewProjectName(n) ==> m == n
  {
    if NewProjectName(m) == NewProjectName(n) {
      assert DecimalString(m) == NewProjectName(m)[12..];
      assert DecimalString(n) == NewProjectName(n)[12..];
      DecimalStringInjective(m, n);
    }
  }

  /**
    Names come from the list length, not from a counter, so deleting and then
    creating can repeat a name already on the list.
   */
  lemma CreateAfterDeleteRepeatsName()
    ensures
      var admin := Settings(Pro, DefaultRoles, Admin);
      var ps := CreateProject(CreateProject([ProjectCard(1, "Demo Project #1", "active", 8, 3)], admin, 10), admin, 11);
      var after := CreateProject(DeleteProject(ps, admin, 10), admin, 12);
      after[1].name == after[2].name && after[1].id != after[2].id
  {
    var admin := Settings(Pro, DefaultRoles, Admin);
    var p0 := [ProjectCard(1, "Demo Project #1", "active", 8, 3)];
    var ps := CreateProject(CreateProject(p0, admin, 10), admin, 11);
    assert ps == p0 + [ProjectCard(10, NewProjectName(2), ActiveStatus, 0, 1)]
                    + [ProjectCard(11, NewProjectName(3), ActiveStatus, 0, 1)];
    assert RemoveId(ps, 10) == p0 + [ProjectCard(11, NewProjectName(3), ActiveStatus, 0, 1)];
  }

  // ---------------------------------------------------------------------------
  // Navigation and sections.

  datatype Section = Home | Projects | BillingSection | DeveloperSection

  /** The sidebar entries, in order. */
  function NavEntries(s: Settings): (r: seq<Section>)
    ensures Home in r && Projects in r
  {
    [Home, Projects]
      + (if CanSeeBilling(s) then [BillingSection] else [])
      + (if CanSeeDeveloper(s) then [DeveloperSection] else [])
  }

  /** The main panel for the selected section, or nothing when its capability is missing. */
  function MainPanel(active: Section, s: Settings): (r: Option<Section>)
    ensures r.Some? ==> r.value == active
    ensures active == Home || active == Projects ==> r == Some(active)
  {
    match active
    case Home => Some(Home)
    case Projects => Some(Projects)
    case BillingSection => if CanSeeBilling(s) then Some(BillingSection) else None
    case DeveloperSection => if CanSeeDeveloper(s) then Some(DeveloperSection) else None
  }

  /** Billing and Developer appear in the sidebar, and render, exactly on the Enterprise plan. */
  lemma PaidSectionsIffEnterprise(s: Settings)
    ensures BillingSection in NavEntries(s) <==> s.plan == Enterprise
    ensures DeveloperSection in NavEntries(s) <==> s.plan == Enterprise
    ensures MainPanel(BillingSection, s).Some? <==> s.plan == Enterprise
    ensures MainPanel(DeveloperSection, s).Some? <==> s.plan == Enterprise
  {
  }

  // ---------------------------------------------------------------------------
  // Home statistics.

  function ActiveCount(ps: seq<ProjectCard>): (n: nat)
    ensures n <= |ps|
    ensures n == 0 <==> forall i :: 0 <= i < |ps| ==> ps[i].status != ActiveStatus
  {
    if ps == [] then 0
    else
      assert forall i :: 1 <= i < |ps| ==> ps[i] == ps[1..][i - 1];
      (if ps[0].status == ActiveStatus then 1 else 0) + ActiveCount(ps[1..])
  }

  /** `projects.reduce((sum, p) => sum + p.tasks, 0)`: a left fold from `acc`. */
  function FoldTasks(acc: int, ps: seq<ProjectCard>): int
    decreases |ps|
  {
    if ps == [] then acc else FoldTasks(acc + ps[0].tasks, ps[1..])
  }

  /** The reference sum of per-project task counts. */
  function SumTasks(ps: seq<ProjectCard>): int {
    if ps == [] then 0 else ps[0].tasks + SumTasks(ps[1..])
  }

  /** The "Total Tasks" figure. */
  function TotalTasks(ps: seq<ProjectCard>): (r: int)
    ensures r == SumTasks(ps)
  {
    FoldIsSum(0, ps);
    FoldTasks(0, ps)
  }

  /** The left fold adds the per-project sum to its start. */
  lemma {:induction false} FoldIsSum(acc: int, ps: seq<ProjectCard>)
    ensures FoldTasks(acc, ps) == acc + SumTasks(ps)
    decreases |ps|
  {
    if ps != [] {
      FoldIsSum(acc + ps[0].tasks, ps[1..]);
    }
  }

  lemma {:induction false} SumAppend(a: seq<ProjectCard>, b: seq<ProjectCard>)
    ensures SumTasks(a + b) == SumTasks(a) + SumTasks(b)
  {
    if a != [] {
      assert (a + b)[1..] == a[1..] + b;
      SumAppend(a[1..], b);
    } else {
      assert a + b == b;
    }
  }

  /** The displayed total is the sum of the cards' task counts; creating a project leaves it as it is. */
  lemma TotalTasksIsSum(ps: seq<ProjectCard>, s: Settings, freshId: int)
    ensures TotalTasks(ps) == SumTasks(ps)
    ensures TotalTasks(CreateProject(ps, s, freshId)) == TotalTasks(ps)
  {
    FoldIsSum(0, ps);
    var r := CreateProject(ps, s, freshId);
    FoldIsSum(0, r);
    if CanCreateProject(s) {
      SumAppend(ps, [r[|ps|]]);
      assert r == ps + [r[|ps|]];
    }
  }

  /** A permitted create adds one project and one active project. */
  lemma CreateCounts(ps: seq<ProjectCard>, s: Settings, freshId: int)
    requires CanCreateProject(s)
    ensures |CreateProject(ps, s, freshId)| == |ps| + 1
    ensures ActiveCount(CreateProject(ps, s, freshId)) == ActiveCount(ps) + 1
  {
    var r := CreateProject(ps, s, freshId);
    ActiveAppend(ps, [r[|ps|]]);
    assert r == ps + [r[|ps|]];
  }

  lemma {:induction false} ActiveAppend(a: seq<ProjectCard>, b: seq<ProjectCard>)
    ensures ActiveCount(a + b) == ActiveCount(a) + ActiveCount(b)
  {
    if a != [] {
      assert (a + b)[1..] == a[1..] + b;
      ActiveAppend(a[1..], b);
    } else {
      assert a + b == b;
    }
  }

  /**
    `Math.max(...projects.map(p => p.members))`: the largest team. On an empty
    list `Math.max()` is -Infinity, here None.
   */
  function LargestTeam(ps: seq<ProjectCard>): (r: Option<int>)
    ensures r.None? <==> ps == []
    ensures r.Some? ==> exists i :: 0 <= i < |ps| && ps[i].members == r.value
    ensures r.Some? ==> forall i :: 0 <= i < |ps| ==> ps[i].members <= r.value
  {
    if ps == [] then None
    else
      match LargestTeam(ps[1..])
      case None => Some(ps[0].members)
      case Some(m) =>
        assert forall i :: 1 <= i < |ps| ==> ps[i] == ps[1..][i - 1];
        var k :| 0 <= k < |ps[1..]| && ps[1..][k].members == m;
        assert ps[k + 1].members == m;
        Some(if ps[0].members >= m then ps[0].members else m)
  }
}
