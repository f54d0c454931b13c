/**
 The workspace an action graph is built from, and what a run asks for.
 */
module Workspaces {
  import opened Actions
  import opened Digraph

  /** How far relationships are followed (`UpstreamScope`, `DownstreamScope`). */
  datatype Scope = NoScope | Direct | Deep {
    predicate InScope(depth: nat) {
      Deep? || (Direct? && depth == 0)
    }
  }

  /** A resolved task dependency with the arguments and environment it passes on. */
  datatype Dep = Dep(target: Target, config: nat)

  /** `runs` is false for a task that the CI check filters out; `leaves` are its install actions. */
  datatype Task = Task(
    project: ProjectId, deps: seq<Dep>, parallel: bool, interactive: bool, persistent: bool,
    priority: nat, id: nat, runs: bool, leaves: seq<nat>)

  datatype WorkspaceData = WorkspaceData(
    tasks: map<Target, Task>,
    dependents: map<Target, seq<Target>>,
    projects: map<ProjectId, seq<ProjectId>>,
    upstream: Scope,
    downstream: Scope,
    affectedTasks: Option<set<Target>>,
    affectedProjects: Option<set<ProjectId>>,
    skipAffected: bool,
    syncWorkspace: bool,
    syncProjects: set<ProjectId>,
    syncProjectDependencies: bool)
  {
    ghost predicate Valid() {
      && dependents.Keys == tasks.Keys
      && (forall t | t in tasks :: tasks[t].project in projects)
      && (forall t, d | t in tasks && d in tasks[t].deps :: d.target in tasks)
      && (forall t, d | t in dependents && d in dependents[t] :: d in tasks)
      && (forall p, q | p in projects && q in projects[p] :: q in projects)
    }

    /** The node of a task when it is run with `config`. */
    function TaskNode(t: Target, config: nat): ActionNode
      requires t in tasks
    {
      var task := tasks[t];
      RunTask(t, config, task.interactive, task.persistent, task.priority, task.id)
    }

    predicate IsTaskNode(n: ActionNode) {
      n.RunTask? && n.target in tasks && n == TaskNode(n.target, n.config)
    }

    /** Every task node that can ever be inserted. */
    ghost function TaskNodes(): set<ActionNode>
      requires forall t, d | t in tasks && d in tasks[t].deps :: d.target in tasks
    {
      (set t | t in tasks :: TaskNode(t, 0)) +
      (set t, d | t in tasks && d in tasks[t].deps :: TaskNode(d.target, d.config))
    }

    /** "requires" between tasks. */
    ghost function Upward(): set<(Target, Target)> {
      set t, d | t in tasks && d in tasks[t].deps :: (t, d.target)
    }

    /** "requires" between tasks that are not filtered out in CI. */
    ghost function Running(): set<(Target, Target)> {
      set t, d | t in tasks && d in tasks[t].deps && d.target in tasks && tasks[t].runs && tasks[d.target].runs :: (t, d.target)
    }

    /** "is required by", to tasks that are affected themselves. */
    ghost function Following(): set<(Target, Target)> {
      set t, d | t in dependents && d in dependents[t] && (affectedTasks.None? || d in affectedTasks.value) :: (t, d)
    }

    predicate TaskAffected(t: Target, skip: bool) {
      skip || affectedTasks.None? || t in affectedTasks.value
    }

    predicate ProjectAffected(p: ProjectId, skip: bool) {
      skip || affectedProjects.None? || p in affectedProjects.value
    }
  }

  /** A workspace whose parts fit together. */
  type Workspace = w: WorkspaceData | w.Valid()
    witness WorkspaceData(map[], map[], map[], NoScope, NoScope, None, None, false, false, {}, false)
}
