/**
  The project detail page: one project and its task list, and the handlers
  that create, update, delete and toggle tasks and save the project's edits.
  Each handler is an immutable transformation of the project.

  `Date.now()` ids and `new Date()` timestamps are parameters.
 */
module ProjectDetail {
  import opened Wrappers
  import opened Text

  datatype Status = Active | Archived | OnHold

  datatype Task = Task(id: int, title: string, description: string, isCompleted: bool, createdAt: int)

  datatype Project = Project(
    id: int, name: string, status: Status, description: string,
    tasks: seq<Task>, members: int, createdAt: int)

  /** `Partial<Task>`: the fields an update sets; absent fields are kept. */
  datatype TaskPatch = TaskPatch(
    id: Option<int>, title: Option<string>, description: Option<string>,
    isCompleted: Option<bool>, createdAt: Option<int>)

  /** `Partial<Project>`: the edit buffer of the page. */
  datatype ProjectDraft = ProjectDraft(
    id: Option<int>, name: Option<string>, status: Option<Status>, description: Option<string>,
    tasks: Option<seq<Task>>, members: Option<int>, createdAt: Option<int>)

  /** The create-task dialog: its form fields and whether it is open. */
  datatype TaskDialog = TaskDialog(title: string, description: string, open: bool)

  /** `{ ...task, ...updates }`. */
  function PatchTask(t: Task, p: TaskPatch): (r: Task)
    ensures p == TaskPatch(None, None, None, None, None) ==> r == t
    ensures r.id == p.id.GetOr(t.id)
    ensures r.title == p.title.GetOr(t.title)
    ensures r.description == p.description.GetOr(t.description)
    ensures r.isCompleted == p.isCompleted.GetOr(t.isCompleted)
    ensures r.createdAt == p.createdAt.GetOr(t.createdAt)
  {
    Task(p.id.GetOr(t.id), p.title.GetOr(t.title), p.description.GetOr(t.description),
         p.isCompleted.GetOr(t.isCompleted), p.createdAt.GetOr(t.createdAt))
  }

  predicate HasId(tasks: seq<Task>, id: int) {
    exists i :: 0 <= i < |tasks| && tasks[i].id == id
  }

  /** No two tasks share an id. */
  predicate UniqueIds(tasks: seq<Task>) {
    forall i, j :: 0 <= i < j < |tasks| ==> tasks[i].id != tasks[j].id
  }

  // ---------------------------------------------------------------------------
  // handleCreateTask

  /**
    A title that trims to nothing leaves project and dialog as they are;
    otherwise one open task is appended and the dialog is cleared and closed.
   */
  function CreateTask(p: Project, d: TaskDialog, freshId: int, now: int): (r: (Project, TaskDialog))
    ensures IsBlank(d.title) ==> r == (p, d)
    ensures !IsBlank(d.title) ==>
      && r.0 == p.(tasks := r.0.tasks)
      && |r.0.tasks| == |p.tasks| + 1
      && r.0.tasks[..|p.tasks|] == p.tasks
      && r.0.tasks[|p.tasks|] == Task(freshId, d.title, d.description, false, now)
      && r.1 == TaskDialog("", "", false)
  {
    TrimEmptyIffBlank(d.title);
    if Trim(d.title) != [] then
      (p.(tasks := p.tasks + [Task(freshId, d.title, d.description, false, now)]), TaskDialog("", "", false))
    else
      (p, d)
  }

  // ---------------------------------------------------------------------------
  // handleUpdateTask

  /** `tasks.map(task => task.id === id ? { ...task, ...updates } : task)`. */
  function UpdateTasks(tasks: seq<Task>, id: int, patch: TaskPatch): (r: seq<Task>)
    ensures |r| == |tasks|
    ensures forall i :: 0 <= i < |tasks| ==>
      r[i] == (if tasks[i].id == id then PatchTask(tasks[i], patch) else tasks[i])
  {
    if tasks == [] then []
    else [if tasks[0].id == id then PatchTask(tasks[0], patch) else tasks[0]]
         + UpdateTasks(tasks[1..], id, patch)
  }

  function UpdateTask(p: Project, id: int, patch: TaskPatch): (r: Project)
    ensures r == p.(tasks := r.tasks)
  {
    p.(tasks := UpdateTasks(p.tasks, id, patch))
  }

  /** Tasks with another id are untouched, and an id nobody has changes nothing. */
  lemma UpdateChangesOnlyMatching(tasks: seq<Task>, id: int, patch: TaskPatch)
    ensures forall i :: 0 <= i < |tasks| && tasks[i].id != id ==> UpdateTasks(tasks, id, patch)[i] == tasks[i]
    ensures !HasId(tasks, id) ==> UpdateTasks(tasks, id, patch) == tasks
  {
    var r := UpdateTasks(tasks, id, patch);
    if !HasId(tasks, id) {
      assert forall i :: 0 <= i < |tasks| ==> r[i] == tasks[i];
    }
  }

  // ---------------------------------------------------------------------------
  // handleDeleteTask

  /** `tasks.filter(task => task.id !== id)`. */
  function DeleteTasks(tasks: seq<Task>, id: int): (r: seq<Task>)
    ensures |r| <= |tasks|
    ensures forall t :: t in r <==> t in tasks && t.id != id
    ensures !HasId(r, id)
  {
    if tasks == [] then []
    else if tasks[0].id == id then DeleteTasks(tasks[1..], id)
    else [tasks[0]] + DeleteTasks(tasks[1..], id)
  }

  function DeleteTask(p: Project, id: int): (r: Project)
    ensures r == p.(tasks := r.tasks)
    ensures !HasId(r.tasks, id)
  {
    p.(tasks := DeleteTasks(p.tasks, id))
  }

  /** The number of tasks carrying `id`. */
  function CountId(tasks: seq<Task>, id: int): nat {
    if tasks == [] then 0 else (if tasks[0].id == id then 1 else 0) + CountId(tasks[1..], id)
  }

  /** Deleting removes exactly the tasks with that id. */
  lemma {:induction false} DeleteRemovesExactly(tasks: seq<Task>, id: int)
    ensures |DeleteTasks(tasks, id)| + CountId(tasks, id) == |tasks|
    ensures CountId(tasks, id) == 0 <==> !HasId(tasks, id)
    ensures !HasId(tasks, id) ==> DeleteTasks(tasks, id) == tasks
  {
    if tasks != [] {
      DeleteRemovesExactly(tasks[1..], id);
      assert HasId(tasks, id) <==> tasks[0].id == id || HasId(tasks[1..], id) by {
        if HasId(tasks[1..], id) {
          var i :| 0 <= i < |tasks[1..]| && tasks[1..][i].id == id;
          assert tasks[i + 1].id == id;
        }
        if HasId(tasks, id) && tasks[0].id != id {
          var i :| 0 <= i < |tasks| && tasks[i].id == id;
          assert tasks[1..][i - 1].id == id;
        }
      }
      assert tasks == [tasks[0]] + tasks[1..];
    }
  }

  /** Deleting keeps order: it works piecewise on a concatenation. */
  lemma {:induction false} DeleteDistributes(a: seq<Task>, b: seq<Task>, id: int)
    ensures DeleteTasks(a + b, id) == DeleteTasks(a, id) + DeleteTasks(b, id)
  {
    if a != [] {
      assert (a + b)[1..] == a[1..] + b;
      DeleteDistributes(a[1..], b, id);
    } else {
      assert a + b == b;
    }
  }

  // ---------------------------------------------------------------------------
  // handleToggleTask

  /** `tasks.find(t => t.id === id)`: the first task with that id. */
  function FindTask(tasks: seq<Task>, id: int): (r: Option<Task>)
    ensures r.None? <==> !HasId(tasks, id)
    ensures r.Some? ==> r.value in tasks && r.value.id == id
    ensures r.Some? ==> exists i :: 0 <= i < |tasks| && tasks[i] == r.value && forall j :: 0 <= j < i ==> tasks[j].id != id
  {
    if tasks == [] then None
    else if tasks[0].id == id then Some(tasks[0])
    else
      var r := FindTask(tasks[1..], id);
      assert HasId(tasks, id) ==> HasId(tasks[1..], id) by {
        if HasId(tasks, id) {
          var i :| 0 <= i < |tasks| && tasks[i].id == id;
          assert tasks[1..][i - 1].id == id;
        }
      }
      assert HasId(tasks[1..], id) ==> HasId(tasks, id) by {
        if HasId(tasks[1..], id) {
          var i :| 0 <= i < |tasks[1..]| && tasks[1..][i].id == id;
          assert tasks[i + 1].id == id;
        }
      }
      assert r.Some? ==>
        exists i :: 0 <= i < |tasks| && tasks[i] == r.value && forall j :: 0 <= j < i ==> tasks[j].id != id
      by {
        if r.Some? {
          var i :| 0 <= i < |tasks[1..]| && tasks[1..][i] == r.value && forall j :: 0 <= j < i ==> tasks[1..][j].id != id;
          assert tasks[i + 1] == r.value;
          forall j | 0 <= j < i + 1 ensures tasks[j].id != id {
            if j > 0 {
              assert tasks[j] == tasks[1..][j - 1];
            }
          }
        }
      }
      r
  }

  /**
    Every task with the id gets the negation of the FIRST such task's flag;
    with no such task, `!undefined` is true but nothing matches.
   */
  function ToggleTasks(tasks: seq<Task>, id: int): (r: seq<Task>)
    ensures |r| == |tasks|
  {
    var newValue := match FindTask(tasks, id)
      case Some(t) => !t.isCompleted
      case None => true;
    UpdateTasks(tasks, id, TaskPatch(None, None, None, Some(newValue), None))
  }

  function ToggleTask(p: Project, id: int): (r: Project)
    ensures r == p.(tasks := r.tasks)
  {
    p.(tasks := ToggleTasks(p.tasks, id))
  }

  /** With unique ids, toggling flips the one matching task and nothing else. */
  lemma ToggleFlipsOnlyMatching(tasks: seq<Task>, id: int)
    requires UniqueIds(tasks)
    ensures forall i :: 0 <= i < |tasks| ==>
      ToggleTasks(tasks, id)[i] ==
        (if tasks[i].id == id then tasks[i].(isCompleted := !tasks[i].isCompleted) else tasks[i])
  {
    var f := FindTask(tasks, id);
    if f.Some? {
      forall i | 0 <= i < |tasks| && tasks[i].id == id ensures f.value == tasks[i] {
        var j :| 0 <= j < |tasks| && tasks[j] == f.value;
        if i != j {
          assert tasks[i].id == tasks[j].id;
        }
      }
    }
  }

  /** An absent id leaves the list as it is. */
  lemma ToggleAbsentIsIdentity(tasks: seq<Task>, id: int)
    requires !HasId(tasks, id)
    ensures ToggleTasks(tasks, id) == tasks
  {
    UpdateChangesOnlyMatching(tasks, id, TaskPatch(None, None, None, Some(true), None));
  }

  /** With unique ids, toggling twice restores the list. */
  lemma ToggleTwiceRestores(tasks: seq<Task>, id: int)
    requires UniqueIds(tasks)
    ensures ToggleTasks(ToggleTasks(tasks, id), id) == tasks
  {
    var once := ToggleTasks(tasks, id);
    ToggleFlipsOnlyMatching(tasks, id);
    assert forall i, j :: 0 <= i < j < |once| ==> once[i].id == tasks[i].id && once[j].id == tasks[j].id;
    ToggleFlipsOnlyMatching(once, id);
    var twice := ToggleTasks(once, id);
    assert forall i :: 0 <= i < |tasks| ==> twice[i] == tasks[i];
  }

  /**
    Without unique ids the toggle is not an involution: two tasks with one id
    and different flags both take the negated flag of the first.
   */
  lemma ToggleTwiceWithDuplicateIds()
    ensures var tasks := [Task(1, "a", "", true, 0), Task(1, "b", "", false, 0)];
      ToggleTasks(ToggleTasks(tasks, 1), 1) != tasks
  {
    var tasks := [Task(1, "a", "", true, 0), Task(1, "b", "", false, 0)];
    assert FindTask(tasks, 1) == Some(tasks[0]);
    var once := ToggleTasks(tasks, 1);
    assert once[0].isCompleted == false && once[1].isCompleted == false;
    assert FindTask(once, 1) == Some(once[0]);
    var twice := ToggleTasks(once, 1);
    assert twice[1].isCompleted == true;
  }

  // ---------------------------------------------------------------------------
  // The handlers keep ids unique, so the toggle lemmas above apply to every
  // list the page builds from a unique-id list.

  /** A create with an id no task has keeps the ids unique. */
  lemma CreateKeepsUniqueIds(p: Project, d: TaskDialog, freshId: int, now: int)
    requires UniqueIds(p.tasks) && !HasId(p.tasks, freshId)
    ensures UniqueIds(CreateTask(p, d, freshId, now).0.tasks)
  {
  }

  /** An update that sends no id (as every call site does) keeps the ids unique. */
  lemma UpdateKeepsUniqueIds(p: Project, id: int, patch: TaskPatch)
    requires UniqueIds(p.tasks) && patch.id.None?
    ensures UniqueIds(UpdateTask(p, id, patch).tasks)
  {
  }

  lemma ToggleKeepsUniqueIds(p: Project, id: int)
    requires UniqueIds(p.tasks)
    ensures UniqueIds(ToggleTask(p, id).tasks)
  {
  }

  lemma {:induction false} DeleteKeepsUniqueIds(p: Project, id: int)
    requires UniqueIds(p.tasks)
    ensures UniqueIds(DeleteTask(p, id).tasks)
  {
    DeleteTasksKeepUniqueIds(p.tasks, id);
  }

  lemma {:induction false} DeleteTasksKeepUniqueIds(tasks: seq<Task>, id: int)
    requires UniqueIds(tasks)
    ensures UniqueIds(DeleteTasks(tasks, id))
  {
    if tasks != [] {
      var rest := tasks[1..];
      assert UniqueIds(rest) by {
        forall i, j | 0 <= i < j < |rest| ensures rest[i].id != rest[j].id {
          assert rest[i] == tasks[i + 1] && rest[j] == tasks[j + 1];
        }
      }
      DeleteTasksKeepUniqueIds(rest, id);
      var r := DeleteTasks(rest, id);
      if tasks[0].id != id {
        forall k | 0 <= k < |r| ensures r[k].id != tasks[0].id {
          assert r[k] in rest;
          var m :| 0 <= m < |rest| && rest[m] == r[k];
          assert rest[m] == tasks[m + 1];
        }
        var whole := [tasks[0]] + r;
        forall i, j | 0 <= i < j < |whole| ensures whole[i].id != whole[j].id {
          assert whole[j] == r[j - 1];
          if i > 0 {
            assert whole[i] == r[i - 1];
          }
        }
      }
    }
  }

  // ---------------------------------------------------------------------------
  // Completion counts: `filter(isCompleted).length`, `tasks.length`, `Math.round(c / t * 100)`.

  function CompletedCount(tasks: seq<Task>): (c: nat)
    ensures c <= |tasks|
    ensures c == |tasks| <==> forall i :: 0 <= i < |tasks| ==> tasks[i].isCompleted
    ensures c == 0 <==> forall i :: 0 <= i < |tasks| ==> !tasks[i].isCompleted
  {
    if tasks == [] then 0
    else
      var rest := CompletedCount(tasks[1..]);
      assert forall i :: 1 <= i < |tasks| ==> tasks[i] == tasks[1..][i - 1];
      (if tasks[0].isCompleted then 1 else 0) + rest
  }

  /**
    The count is additive over concatenation; with the one-task cases fixed by
    the contract above, this pins `filter(isCompleted).length` on every list.
   */
  lemma {:induction false} CompletedAppend(a: seq<Task>, b: seq<Task>)
    ensures CompletedCount(a + b) == CompletedCount(a) + CompletedCount(b)
  {
    if a != [] {
      assert (a + b)[1..] == a[1..] + b;
      CompletedAppend(a[1..], b);
    } else {
      assert a + b == b;
    }
  }

  /** `Math.round(x)` of a non-negative ratio a / b: the nearest integer, halves up. */
  function RoundRatio(a: nat, b: nat): (r: nat)
    requires b > 0
    ensures -(b as int) <= 2 * a - 2 * (r * b) < b
  {
    var r := (2 * a + b) / (2 * b);
    assert r * (2 * b) <= 2 * a + b < (r + 1) * (2 * b);
    r
  }

  function CompletionPercentage(tasks: seq<Task>): (pct: nat)
    ensures pct <= 100
    ensures tasks == [] ==> pct == 0
    ensures tasks != [] && CompletedCount(tasks) == |tasks| ==> pct == 100
    ensures CompletedCount(tasks) == 0 ==> pct == 0
    ensures tasks != [] ==> -|tasks| <= 2 * (100 * CompletedCount(tasks)) - 2 * (pct * |tasks|) < |tasks|
  {
    var total := |tasks|;
    if total > 0 then
      var pct := RoundRatio(100 * CompletedCount(tasks), total);
      PercentBounds(CompletedCount(tasks), total, pct);
      pct
    else 0
  }

  /** The rounded percentage of c out of t (c <= t) stays in [0, 100], with both ends exact. */
  lemma PercentBounds(c: nat, t: nat, pct: nat)
    requires 0 < t && c <= t
    requires -(t as int) <= 2 * (100 * c) - 2 * (pct * t) < t
    ensures pct <= 100
    ensures c == t ==> pct == 100
    ensures c == 0 ==> pct == 0
  {
    if pct > 100 {
      MulMono(101, pct, t);
    }
    if c == t && pct < 100 {
      MulMono(pct, 99, t);
    }
    if c == 0 && pct > 0 {
      MulMono(1, pct, t);
    }
  }

  /** Multiplying by a non-negative factor keeps the order. */
  lemma MulMono(a: nat, b: nat, t: nat)
    requires a <= b
    ensures a * t <= b * t
  {
    assert b * t == a * t + (b - a) * t;
  }

  // ---------------------------------------------------------------------------
  // handleSaveProject

  /** Truthiness of the three required draft fields. */
  predicate DraftComplete(d: ProjectDraft) {
    d.name.Some? && d.name.value != [] && d.status.Some? && d.description.Some? && d.description.value != []
  }

  /** The draft the page seeds from the loaded project: every field. */
  function SeedDraft(p: Project): (d: ProjectDraft)
    ensures d.id == Some(p.id) && d.name == Some(p.name) && d.status == Some(p.status)
    ensures d.description == Some(p.description) && d.tasks == Some(p.tasks)
    ensures d.members == Some(p.members) && d.createdAt == Some(p.createdAt)
  {
    ProjectDraft(Some(p.id), Some(p.name), Some(p.status), Some(p.description),
                 Some(p.tasks), Some(p.members), Some(p.createdAt))
  }

  /** `{ ...project, ...editedProject }` under the guard, returning the project and whether editing stays on. */
  function SaveProjectAsWritten(p: Project, d: ProjectDraft, editing: bool): (r: (Project, bool))
    ensures !DraftComplete(d) ==> r == (p, editing)
    ensures DraftComplete(d) ==> !r.1
    ensures DraftComplete(d) ==>
      && r.0.name == d.name.value && r.0.status == d.status.value && r.0.description == d.description.value
      && r.0.tasks == d.tasks.GetOr(p.tasks) && r.0.id == d.id.GetOr(p.id)
      && r.0.members == d.members.GetOr(p.members) && r.0.createdAt == d.createdAt.GetOr(p.createdAt)
  {
    if DraftComplete(d) then
      (Project(d.id.GetOr(p.id), d.name.GetOr(p.name), d.status.GetOr(p.status),
               d.description.GetOr(p.description), d.tasks.GetOr(p.tasks),
               d.members.GetOr(p.members), d.createdAt.GetOr(p.createdAt)), false)
    else
      (p, editing)
  }

  /**
    The draft is seeded once, with the tasks of the loaded project. Adding a
    task and then saving a rename loses the added task.
   */
  lemma SaveAsWrittenRevertsTasks()
    ensures
      var p0 := Project(1, "Demo", Active, "desc", [], 3, 0);
      var draft := SeedDraft(p0).(name := Some("Renamed"));
      var p1 := CreateTask(p0, TaskDialog("New task", "", true), 7, 1).0;
      |p1.tasks| == 1 && SaveProjectAsWritten(p1, draft, true).0.tasks == []
  {
    var d := TaskDialog("New task", "", true);
    assert d.title[0] == 'N';
    assert !IsBlank(d.title);
  }

  /**
    The save the edit form means: merge only the edited name, status and
    description, keeping the current tasks and other fields.
   */
  function SaveProject(p: Project, d: ProjectDraft, editing: bool): (r: (Project, bool))
    ensures !DraftComplete(d) ==> r == (p, editing)
    ensures DraftComplete(d) ==> !r.1
    ensures DraftComplete(d) ==>
      && r.0.name == d.name.value && r.0.status == d.status.value && r.0.description == d.description.value
      && r.0.tasks == p.tasks && r.0.id == p.id && r.0.members == p.members && r.0.createdAt == p.createdAt
  {
    if DraftComplete(d) then
      (p.(name := d.name.value, status := d.status.value, description := d.description.value), false)
    else
      (p, editing)
  }

  /** Saving never touches the task list, so a save after task edits keeps them. */
  lemma SaveKeepsTasks(p: Project, d: ProjectDraft, editing: bool, id: int, patch: TaskPatch)
    ensures SaveProject(p, d, editing).0.tasks == p.tasks
    ensures SaveProject(UpdateTask(p, id, patch), d, editing).0.tasks == UpdateTask(p, id, patch).tasks
    ensures SaveProject(DeleteTask(p, id), d, editing).0.tasks == DeleteTask(p, id).tasks
  {
  }

  /** When the draft was seeded from the current project, both saves agree. */
  lemma SaveAgreesOnFreshDraft(p: Project, name: string, status: Status, description: string, editing: bool)
    ensures var d := SeedDraft(p).(name := Some(name), status := Some(status), description := Some(description));
      SaveProject(p, d, editing) == SaveProjectAsWritten(p, d, editing)
  {
  }
}
