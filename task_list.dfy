/**
 * The task status board of a project page.
 *
 * Grouping: the flat task list of the cached project is folded (`reduce`) into an
 * object keyed by status, starting from an object that already holds the five
 * statuses with empty arrays; each step copies the task's array, appends the task
 * and writes the copy back with an object spread. The columns are then rendered
 * in the object's key order (`Object.entries`).
 *
 * Drag end: dropping a task card on a column's drop zone sends one status-update
 * request and, synchronously, rewrites the cached project under the key
 * `["project", projectId]` so that the dragged task carries the new status. The
 * request's success invalidates that key; its failure only shows the message.
 */
module TaskList {
  import opened Wrappers
  import opened Types

  // ===== the grouped object =====

  /** One key of the grouped object together with its array. */
  datatype Column = Column(status: TaskStatus, tasks: seq<TaskProject>)

  /** An object keyed by status, written as its entries in key insertion order (what `Object.entries` yields). */
  type GroupedTasks = seq<Column>

  function Keys(g: GroupedTasks): (ks: seq<TaskStatus>)
    ensures |ks| == |g|
    ensures forall i :: 0 <= i < |g| ==> ks[i] == g[i].status
  {
    if g == [] then [] else [g[0].status] + Keys(g[1..])
  }

  /** `acc[status]`: the array under the key, `None` for `undefined`. */
  function Get(g: GroupedTasks, s: TaskStatus): Option<seq<TaskProject>>
  {
    if g == [] then None
    else if g[0].status == s then Some(g[0].tasks)
    else Get(g[1..], s)
  }

  /** `{ ...acc, [status]: tasks }`: an existing key keeps its place, a new key goes last. */
  function Put(g: GroupedTasks, s: TaskStatus, tasks: seq<TaskProject>): (r: GroupedTasks)
    ensures Get(g, s).Some? ==> Keys(r) == Keys(g)
    ensures Get(g, s).None? ==> Keys(r) == Keys(g) + [s]
    ensures Get(r, s) == Some(tasks)
    ensures forall s' :: s' != s ==> Get(r, s') == Get(g, s')
  {
    if g == [] then [Column(s, tasks)]
    else if g[0].status == s then [Column(s, tasks)] + g[1..]
    else [g[0]] + Put(g[1..], s, tasks)
  }

  /** `initialStatusGroups`: the five statuses, in enum order, each with an empty array. */
  const InitialStatusGroups: GroupedTasks :=
    [Column(Pending, []), Column(OnHold, []), Column(InProgress, []), Column(UnderReview, []), Column(Completed, [])]

  /** The reducer: copy the task's group (or start an empty one), append the task, write it back. */
  function AddToGroup(acc: GroupedTasks, task: TaskProject): GroupedTasks
  {
    var current := if Get(acc, task.status).Some? then Get(acc, task.status).value else [];
    Put(acc, task.status, current + [task])
  }

  /** `tasks.reduce(AddToGroup, acc)`, a left fold. */
  function Reduce(acc: GroupedTasks, tasks: seq<TaskProject>): GroupedTasks
    decreases |tasks|
  {
    if tasks == [] then acc else Reduce(AddToGroup(acc, tasks[0]), tasks[1..])
  }

  /** `groupedTasks`. */
  function GroupTasks(tasks: seq<TaskProject>): GroupedTasks
  {
    Reduce(InitialStatusGroups, tasks)
  }

  // ===== the reference board =====

  /** The tasks that carry the status, in input order. */
  function WithStatus(tasks: seq<TaskProject>, s: TaskStatus): (r: seq<TaskProject>)
    ensures |r| <= |tasks|
  {
    if tasks == [] then []
    else (if tasks[0].status == s then [tasks[0]] else []) + WithStatus(tasks[1..], s)
  }

  /** A task is kept exactly when it is an input task of that status. */
  lemma {:induction false} WithStatusMembers(tasks: seq<TaskProject>, s: TaskStatus)
    ensures forall t :: t in WithStatus(tasks, s) <==> t in tasks && t.status == s
  {
    if tasks != [] {
      WithStatusMembers(tasks[1..], s);
      assert tasks == [tasks[0]] + tasks[1..];
    }
  }

  /** One column per status, in enum order, each holding exactly that status's tasks. */
  function Board(tasks: seq<TaskProject>): GroupedTasks
  {
    seq(|AllStatuses|, i requires 0 <= i < |AllStatuses| => Column(AllStatuses[i], WithStatus(tasks, AllStatuses[i])))
  }

  /** All task arrays of the object, concatenated in key order. */
  function Flatten(g: GroupedTasks): seq<TaskProject>
  {
    if g == [] then [] else g[0].tasks + Flatten(g[1..])
  }

  /** No status is a key twice. */
  predicate DistinctKeys(g: GroupedTasks)
  {
    forall i, j :: 0 <= i < j < |g| ==> g[i].status != g[j].status
  }

  lemma {:induction false} GetDistinct(g: GroupedTasks, i: nat)
    requires DistinctKeys(g) && i < |g|
    ensures Get(g, g[i].status) == Some(g[i].tasks)
  {
    if i > 0 {
      assert g[0].status != g[i].status;
      assert g[1..][i - 1] == g[i];
      GetDistinct(g[1..], i - 1);
    }
  }

  /** An object that holds every status. */
  predicate HasAllKeys(g: GroupedTasks)
  {
    forall s :: Get(g, s).Some?
  }

  /** One reducer step on an object holding every status: the keys stay, only the task's own status grows. */
  lemma AddToGroupStep(acc: GroupedTasks, t: TaskProject)
    requires HasAllKeys(acc)
    ensures Keys(AddToGroup(acc, t)) == Keys(acc)
    ensures HasAllKeys(AddToGroup(acc, t))
    ensures Get(AddToGroup(acc, t), t.status) == Some(Get(acc, t.status).value + [t])
    ensures forall s :: s != t.status ==> Get(AddToGroup(acc, t), s) == Get(acc, s)
  {
    assert Get(acc, t.status).Some?;
  }

  /** The fold over an object holding every status keeps the keys in place. */
  lemma {:induction false} ReduceKeepsKeys(acc: GroupedTasks, tasks: seq<TaskProject>)
    requires HasAllKeys(acc)
    ensures Keys(Reduce(acc, tasks)) == Keys(acc)
    ensures HasAllKeys(Reduce(acc, tasks))
    decreases |tasks|
  {
    if tasks != [] {
      AddToGroupStep(acc, tasks[0]);
      ReduceKeepsKeys(AddToGroup(acc, tasks[0]), tasks[1..]);
    }
  }

  /** One reducer step followed by the rest of the input appends what the whole input appends. */
  lemma AddToGroupAppends(acc: GroupedTasks, t: TaskProject, rest: seq<TaskProject>, s: TaskStatus)
    requires HasAllKeys(acc)
    ensures Get(AddToGroup(acc, t), s).Some?
    ensures Get(AddToGroup(acc, t), s).value + WithStatus(rest, s) == Get(acc, s).value + WithStatus([t] + rest, s)
  {
    assert Get(acc, t.status).Some? && Get(acc, s).Some?;
    var before, later := Get(acc, s).value, WithStatus(rest, s);
    assert ([t] + rest)[0] == t && ([t] + rest)[1..] == rest;
    if s == t.status {
      assert Get(AddToGroup(acc, t), s).value == before + [t];
      assert WithStatus([t] + rest, s) == [t] + later;
      assert (before + [t]) + later == before + ([t] + later);
    } else {
      assert Get(AddToGroup(acc, t), s) == Get(acc, s);
      assert WithStatus([t] + rest, s) == later;
    }
  }

  /** The fold over an object holding every status appends, under s, exactly the tasks of status s in input order. */
  lemma {:induction false} ReduceAppendsByStatus(acc: GroupedTasks, tasks: seq<TaskProject>, s: TaskStatus)
    requires HasAllKeys(acc)
    ensures Get(Reduce(acc, tasks), s) == Some(Get(acc, s).value + WithStatus(tasks, s))
    decreases |tasks|
  {
    if tasks == [] {
      assert Get(acc, s).Some?;
      assert Get(acc, s).value + [] == Get(acc, s).value;
    } else {
      AddToGroupAppends(acc, tasks[0], tasks[1..], s);
      AddToGroupStep(acc, tasks[0]);
      ReduceAppendsByStatus(AddToGroup(acc, tasks[0]), tasks[1..], s);
      assert [tasks[0]] + tasks[1..] == tasks;
    }
  }

  /**
   * The status board the fold builds is the reference board: the five keys in
   * the initial object's order, each mapped to exactly the input tasks of that
   * status in their original relative order.
   */
  lemma GroupTasksIsBoard(tasks: seq<TaskProject>)
    ensures GroupTasks(tasks) == Board(tasks)
  {
    var g := GroupTasks(tasks);
    InitialStatusGroupsShape();
    ReduceKeepsKeys(InitialStatusGroups, tasks);
    AllStatusesEnumerated();
    assert Keys(g) == AllStatuses;
    assert DistinctKeys(g);
    forall i | 0 <= i < |g| ensures g[i] == Board(tasks)[i] {
      GetDistinct(g, i);
      ReduceAppendsByStatus(InitialStatusGroups, tasks, g[i].status);
    }
  }

  /** The initial object holds the five statuses in enum order, each with an empty array. */
  lemma InitialStatusGroupsShape()
    ensures Keys(InitialStatusGroups) == AllStatuses
    ensures forall s :: Get(InitialStatusGroups, s) == Some([])
    ensures HasAllKeys(InitialStatusGroups)
  {
    forall s ensures Get(InitialStatusGroups, s) == Some([]) {
      match s
      case Pending =>
      case OnHold =>
      case InProgress =>
      case UnderReview =>
      case Completed =>
    }
  }

  /**
   * The columns are rendered in the fixed order pending, onHold, inProgress,
   * underReview, completed; every status has a column, empty when no task has it.
   */
  lemma GroupTasksColumns(tasks: seq<TaskProject>)
    ensures Keys(GroupTasks(tasks)) == [Pending, OnHold, InProgress, UnderReview, Completed]
    ensures forall s :: Get(GroupTasks(tasks), s) == Some(WithStatus(tasks, s))
  {
    GroupTasksIsBoard(tasks);
    assert Keys(Board(tasks)) == AllStatuses;
    forall s ensures Get(Board(tasks), s) == Some(WithStatus(tasks, s)) {
      BoardColumn(tasks, s);
    }
  }

  /** The reference board's column for a status holds that status's tasks. */
  lemma BoardColumn(tasks: seq<TaskProject>, s: TaskStatus)
    ensures Get(Board(tasks), s) == Some(WithStatus(tasks, s))
  {
    var g := Board(tasks);
    AllStatusesEnumerated();
    assert DistinctKeys(g);
    GetDistinct(g, StatusIndex(s));
  }

  /** An empty task list yields the initial object: all five keys, all empty. */
  lemma GroupTasksOfEmpty()
    ensures GroupTasks([]) == InitialStatusGroups
    ensures forall c :: c in GroupTasks([]) ==> c.tasks == []
  {
  }

  /** A task is in a column exactly when it is an input task with that column's status. */
  lemma GroupTasksMembership(tasks: seq<TaskProject>, t: TaskProject)
    ensures forall i :: 0 <= i < |GroupTasks(tasks)| ==>
      (t in GroupTasks(tasks)[i].tasks <==> t in tasks && t.status == GroupTasks(tasks)[i].status)
  {
    GroupTasksIsBoard(tasks);
    forall i | 0 <= i < |AllStatuses| {
      WithStatusMembers(tasks, AllStatuses[i]);
    }
  }

  // ===== order and partition =====

  /** Filtering distributes over concatenation. */
  lemma {:induction false} WithStatusAppend(a: seq<TaskProject>, b: seq<TaskProject>, s: TaskStatus)
    ensures WithStatus(a + b, s) == WithStatus(a, s) + WithStatus(b, s)
  {
    if a == [] {
      assert a + b == b;
    } else {
      var t := a[0];
      assert (a + b)[0] == t && (a + b)[1..] == a[1..] + b;
      WithStatusAppend(a[1..], b, s);
      var head, rest := if t.status == s then [t] else [], WithStatus(a[1..], s);
      assert WithStatus(a + b, s) == head + WithStatus(a[1..] + b, s);
      assert WithStatus(a, s) == head + rest;
      assert head + (rest + WithStatus(b, s)) == (head + rest) + WithStatus(b, s);
    }
  }

  /**
   * Relative order is kept: the task at input index i of status s sits in its
   * column at the position given by the count of earlier tasks of status s, and
   * a later task of the same status sits strictly after it.
   */
  lemma WithStatusOrder(tasks: seq<TaskProject>, s: TaskStatus, i: nat, j: nat)
    requires i < j < |tasks|
    requires tasks[i].status == s && tasks[j].status == s
    ensures |WithStatus(tasks[..i], s)| < |WithStatus(tasks[..j], s)| < |WithStatus(tasks, s)|
    ensures WithStatus(tasks, s)[|WithStatus(tasks[..i], s)|] == tasks[i]
    ensures WithStatus(tasks, s)[|WithStatus(tasks[..j], s)|] == tasks[j]
  {
    WithStatusAt(tasks, s, i);
    WithStatusAt(tasks, s, j);
    assert tasks[..j] == tasks[..i] + tasks[i..j];
    WithStatusAppend(tasks[..i], tasks[i..j], s);
    assert tasks[i..j][0] == tasks[i];
  }

  /** The task at index k of status s sits in its column after exactly the earlier tasks of status s. */
  lemma WithStatusAt(tasks: seq<TaskProject>, s: TaskStatus, k: nat)
    requires k < |tasks| && tasks[k].status == s
    ensures |WithStatus(tasks[..k], s)| < |WithStatus(tasks, s)|
    ensures WithStatus(tasks, s)[|WithStatus(tasks[..k], s)|] == tasks[k]
  {
    assert tasks == tasks[..k] + tasks[k..];
    WithStatusAppend(tasks[..k], tasks[k..], s);
    assert tasks[k..][0] == tasks[k];
  }

  /** Appending a task under a present key adds exactly that task to the object's contents. */
  lemma {:induction false} PutAppendFlatten(g: GroupedTasks, s: TaskStatus, t: TaskProject)
    requires Get(g, s).Some?
    ensures multiset(Flatten(Put(g, s, Get(g, s).value + [t]))) == multiset(Flatten(g)) + multiset{t}
  {
    if g[0].status == s {
      var v := g[0].tasks + [t];
      assert Put(g, s, v) == [Column(s, v)] + g[1..];
      assert ([Column(s, v)] + g[1..])[1..] == g[1..];
      assert Flatten(Put(g, s, v)) == v + Flatten(g[1..]);
    } else {
      var v := Get(g, s).value + [t];
      PutAppendFlatten(g[1..], s, t);
      assert Put(g, s, v) == [g[0]] + Put(g[1..], s, v);
      assert ([g[0]] + Put(g[1..], s, v))[1..] == Put(g[1..], s, v);
    }
  }

  /** The fold adds every input task to the object's contents exactly once. */
  lemma {:induction false} ReduceFlatten(acc: GroupedTasks, tasks: seq<TaskProject>)
    requires HasAllKeys(acc)
    ensures multiset(Flatten(Reduce(acc, tasks))) == multiset(Flatten(acc)) + multiset(tasks)
    decreases |tasks|
  {
    if tasks != [] {
      var t, rest := tasks[0], tasks[1..];
      AddToGroupStep(acc, t);
      PutAppendFlatten(acc, t.status, t);
      ReduceFlatten(AddToGroup(acc, t), rest);
      assert tasks == [t] + rest;
    }
  }

  /**
   * The board is a partition of the input: its columns together hold the input
   * tasks as a multiset, so the column lengths add up to the input length.
   */
  lemma GroupTasksPartition(tasks: seq<TaskProject>)
    ensures multiset(Flatten(GroupTasks(tasks))) == multiset(tasks)
    ensures |Flatten(GroupTasks(tasks))| == |tasks|
  {
    InitialStatusGroupsShape();
    ReduceFlatten(InitialStatusGroups, tasks);
    assert Flatten(InitialStatusGroups) == [];
    var all := Flatten(GroupTasks(tasks));
    assert |all| == |multiset(all)|;
  }

  /** The drop zone ids: each column's key, as `DropTask` registers it. */
  function DropZoneIds(g: GroupedTasks): (ids: seq<string>)
    ensures |ids| == |g|
    ensures forall i :: 0 <= i < |g| ==> ParseStatus(ids[i]) == Some(g[i].status) && ids[i] != ""
  {
    if g == [] then []
    else
      ParseStatusName(g[0].status);
      [StatusName(g[0].status)] + DropZoneIds(g[1..])
  }

  // ===== the optimistic patch =====

  /** The updater's step for one task: a copy with the new status for the dragged id, the task itself otherwise. */
  function PatchTask(task: TaskProject, taskId: string, status: TaskStatus): TaskProject
  {
    if task.id == taskId then task.(status := status) else task
  }

  /** `prevData.tasks.map(...)`. */
  function PatchTasks(tasks: seq<TaskProject>, taskId: string, status: TaskStatus): (r: seq<TaskProject>)
    ensures |r| == |tasks|
    ensures forall i :: 0 <= i < |tasks| ==> r[i] == PatchTask(tasks[i], taskId, status)
  {
    if tasks == [] then [] else [PatchTask(tasks[0], taskId, status)] + PatchTasks(tasks[1..], taskId, status)
  }

  /**
   * The updater `(prevData) => ({ ...prevData, tasks: updatedTasks })`: the task list
   * keeps its length and order, the dragged id gets the target status, and every
   * other task and every other project field is unchanged.
   */
  function PatchProject(p: Project, taskId: string, status: TaskStatus): (r: Project)
    ensures r.(tasks := p.tasks) == p
    ensures |r.tasks| == |p.tasks|
    ensures forall i :: 0 <= i < |p.tasks| ==>
      r.tasks[i].id == p.tasks[i].id && r.tasks[i].name == p.tasks[i].name &&
      r.tasks[i].description == p.tasks[i].description &&
      r.tasks[i].status == (if p.tasks[i].id == taskId then status else p.tasks[i].status)
  {
    p.(tasks := PatchTasks(p.tasks, taskId, status))
  }

  /** Applying the same patch twice gives the same project as applying it once. */
  lemma PatchProjectIdempotent(p: Project, taskId: string, status: TaskStatus)
    ensures PatchProject(PatchProject(p, taskId, status), taskId, status) == PatchProject(p, taskId, status)
  {
    var once := PatchProject(p, taskId, status);
    assert PatchProject(once, taskId, status).tasks == once.tasks;
  }

  /** Of two patches of the same task, the later one decides its status. */
  lemma PatchProjectLastWins(p: Project, taskId: string, first: TaskStatus, second: TaskStatus)
    ensures PatchProject(PatchProject(p, taskId, first), taskId, second) == PatchProject(p, taskId, second)
  {
    assert PatchProject(PatchProject(p, taskId, first), taskId, second).tasks == PatchProject(p, taskId, second).tasks;
  }

  /** Patches of two different tasks commute. */
  lemma PatchProjectCommutes(p: Project, a: string, sa: TaskStatus, b: string, sb: TaskStatus)
    requires a != b
    ensures PatchProject(PatchProject(p, a, sa), b, sb) == PatchProject(PatchProject(p, b, sb), a, sa)
  {
    assert PatchProject(PatchProject(p, a, sa), b, sb).tasks == PatchProject(PatchProject(p, b, sb), a, sa).tasks;
  }

  /** Dropping a task on the column it is already in leaves the cached project as it was. */
  lemma PatchProjectSameStatus(p: Project, taskId: string, status: TaskStatus)
    requires forall t :: t in p.tasks && t.id == taskId ==> t.status == status
    ensures PatchProject(p, taskId, status) == p
  {
    assert PatchProject(p, taskId, status).tasks == p.tasks;
  }

  /** The tasks whose id differs from the given one, in order. */
  function WithoutId(tasks: seq<TaskProject>, taskId: string): (r: seq<TaskProject>)
    ensures forall t :: t in r <==> t in tasks && t.id != taskId
  {
    if tasks == [] then []
    else (if tasks[0].id != taskId then [tasks[0]] else []) + WithoutId(tasks[1..], taskId)
  }

  /**
   * Effect of the patch on every column other than the target: it loses exactly
   * the dragged task and otherwise keeps its tasks in order.
   */
  lemma {:induction false} PatchLeavesOtherColumns(tasks: seq<TaskProject>, taskId: string, status: TaskStatus, other: TaskStatus)
    requires other != status
    ensures WithStatus(PatchTasks(tasks, taskId, status), other) == WithoutId(WithStatus(tasks, other), taskId)
  {
    if tasks != [] {
      var t, rest := tasks[0], tasks[1..];
      PatchLeavesOtherColumns(rest, taskId, status, other);
      var patched := PatchTasks(tasks, taskId, status);
      assert patched[0] == PatchTask(t, taskId, status);
      assert patched[1..] == PatchTasks(rest, taskId, status);
      var kept := WithStatus(rest, other);
      if t.status == other {
        assert WithStatus(tasks, other) == [t] + kept;
        assert ([t] + kept)[1..] == kept;
      } else {
        assert WithStatus(tasks, other) == kept;
      }
    }
  }

  /** After the patch the dragged task, with its new status, is in the target column. */
  lemma PatchPutsInTargetColumn(tasks: seq<TaskProject>, taskId: string, status: TaskStatus, t: TaskProject)
    requires t in tasks && t.id == taskId
    ensures t.(status := status) in WithStatus(PatchTasks(tasks, taskId, status), status)
  {
    var patched := PatchTasks(tasks, taskId, status);
    var k :| 0 <= k < |tasks| && tasks[k] == t;
    assert patched[k] == t.(status := status);
    WithStatusMembers(patched, status);
  }

  // ===== the query cache and the drag-end handler =====

  /** A query key, the array of its parts. */
  datatype QueryKey = QueryKey(parts: seq<string>)

  /** `["project", projectId]`. */
  function ProjectKey(projectId: string): (k: QueryKey)
    ensures k.parts == ["project", projectId]
  {
    QueryKey(["project", projectId])
  }

  /** The body of the `updateStatus` mutation: which task of which project gets which status. */
  datatype StatusRequest = StatusRequest(projectId: string, taskId: string, status: TaskStatus)

  /** A notification shown to the user. */
  datatype Toast = ErrorToast(message: string) | SuccessToast(message: string)

  /**
   * How a drag end ended: no drop target; request sent and cache patched; or
   * request sent and the updater failed because no project was cached under the key.
   */
  datatype DragOutcome = NoDropTarget | CachePatched | UpdaterFailed

  /**
   * The drop target's id is cast to a status without a check: the only drop
   * zones of the board are keyed by status name (`DropZoneIds`), so a non-empty
   * id is a status name.
   */
  predicate DropIdIsStatus(overId: Option<string>)
  {
    overId.Some? && overId.value != "" ==> ParseStatus(overId.value).Some?
  }

  /** `over && over.id ? over.id as TaskStatus : nothing`. */
  function DropStatus(overId: Option<string>): (r: Option<TaskStatus>)
    requires DropIdIsStatus(overId)
    ensures r.None? <==> overId.None? || overId.value == ""
    ensures r.Some? ==> StatusName(r.value) == overId.value
  {
    if overId.Some? && overId.value != "" then ParseStatus(overId.value) else None
  }

  /** Every drop zone the board registers passes the cast. */
  lemma BoardDropZonesAreStatuses(tasks: seq<TaskProject>)
    ensures forall id :: id in DropZoneIds(GroupTasks(tasks)) ==> DropIdIsStatus(Some(id)) && DropStatus(Some(id)).Some?
  {
  }

  /** The client's query cache as far as the status board uses it. */
  class QueryCache {
    /** Cached projects, by query key. */
    var entries: map<QueryKey, Project>
    /** Keys marked stale. */
    var invalidated: set<QueryKey>
    /** Status-update requests sent, oldest first. */
    var sent: seq<StatusRequest>
    /** Notifications shown, oldest first. */
    var toasts: seq<Toast>

    constructor (initial: map<QueryKey, Project>)
      ensures entries == initial && invalidated == {} && sent == [] && toasts == []
    {
      entries := initial;
      invalidated := {};
      sent := [];
      toasts := [];
    }

    /**
     * `handleDragEnd`. Without a drop target nothing happens. Otherwise exactly one
     * request (projectId, activeId, status) is sent, also when the task already
     * has that status, and then the cached project under `["project", projectId]`
     * is patched; if no project is cached there the updater fails after the
     * request has gone out and the cache is left alone.
     */
    method DragEnd(projectId: string, activeId: string, overId: Option<string>) returns (outcome: DragOutcome)
      requires DropIdIsStatus(overId)
      modifies this
      ensures outcome == NoDropTarget <==> DropStatus(overId).None?
      ensures outcome == NoDropTarget ==> sent == old(sent)
      ensures outcome != NoDropTarget ==> sent == old(sent) + [StatusRequest(projectId, activeId, DropStatus(overId).value)]
      ensures outcome == CachePatched <==> DropStatus(overId).Some? && ProjectKey(projectId) in old(entries)
      ensures outcome == CachePatched ==>
        entries == old(entries)[ProjectKey(projectId) := PatchProject(old(entries)[ProjectKey(projectId)], activeId, DropStatus(overId).value)]
      ensures outcome != CachePatched ==> entries == old(entries)
      ensures invalidated == old(invalidated) && toasts == old(toasts)
    {
      var status := DropStatus(overId);
      if status.None? {
        return NoDropTarget;
      }
      sent := sent + [StatusRequest(projectId, activeId, status.value)];
      var key := ProjectKey(projectId);
      if key in entries {
        entries := entries[key := PatchProject(entries[key], activeId, status.value)];
        outcome := CachePatched;
      } else {
        outcome := UpdaterFailed;
      }
    }

    /** The mutation's `onSuccess`: invalidate `["project", projectId]` and show the server's message. */
    method OnSuccess(projectId: string, message: string)
      modifies this
      ensures invalidated == old(invalidated) + {ProjectKey(projectId)}
      ensures toasts == old(toasts) + [SuccessToast(message)]
      ensures entries == old(entries) && sent == old(sent)
    {
      invalidated := invalidated + {ProjectKey(projectId)};
      toasts := toasts + [SuccessToast(message)];
    }

    /** The mutation's `onError`: show the message; the optimistic patch stays in the cache. */
    method OnError(message: string)
      modifies this
      ensures toasts == old(toasts) + [ErrorToast(message)]
      ensures entries == old(entries) && invalidated == old(invalidated) && sent == old(sent)
    {
      toasts := toasts + [ErrorToast(message)];
    }
  }

  /** Project P with T1 pending and T2 in progress: T1 is dropped on "completed" and the request fails. */
  method DragThenFailScenario()
  {
    var t1 := TaskProject("T1", "first", "", Pending);
    var t2 := TaskProject("T2", "second", "", InProgress);
    var p := Project("P", "Board", "Client", "", "M", [t1, t2], []);
    var cache := new QueryCache(map[ProjectKey("P") := p]);
    var ignored := cache.DragEnd("P", "T1", None);
    assert ignored == NoDropTarget && cache.sent == [];
    var outcome := cache.DragEnd("P", "T1", Some("completed"));
    assert outcome == CachePatched;
    assert cache.entries[ProjectKey("P")].tasks == [t1.(status := Completed), t2];
    assert cache.sent == [StatusRequest("P", "T1", Completed)];
    cache.OnError("Unauthorized");
    assert cache.entries[ProjectKey("P")].tasks == [t1.(status := Completed), t2];
    assert cache.invalidated == {} && cache.toasts == [ErrorToast("Unauthorized")];
  }
}
