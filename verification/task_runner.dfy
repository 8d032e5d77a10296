/**
 * src/system/tasks/Runner.tsx: the component that owns the running tasks.
 * It keeps two registries, the tasks it was mounted with and the sibling
 * tasks those start later, and hands every task callbacks that start a
 * sibling or end the task itself.
 */
module TaskRunner {
  import opened Wrappers
  import opened JsMaps
  import opened Tasks

  /** `{ requestTaskStart: requestSiblingTaskStart, requestTaskEnd: () => request...TaskEnd(name) }`. */
  function RunnerProps(registry: Registry, taskName: string): map<string, PropValue> {
    map["requestTaskStart" := StartSibling, "requestTaskEnd" := EndTask(registry, taskName)]
  }

  /** A task as the runner files it in `registry`. */
  function Prepared(task: Task, registry: Registry): (r: Task)
    ensures r.name == task.name
    ensures "requestTaskEnd" in r.component.props && r.component.props["requestTaskEnd"] == EndTask(registry, task.name)
    ensures "requestTaskStart" in r.component.props && r.component.props["requestTaskStart"] == StartSibling
  {
    SetTasksComponentProps(task, RunnerProps(registry, task.name))
  }

  /** Every task is filed under its own name and its end callback ends exactly that entry. */
  ghost predicate OwnsCallbacks(m: JsMap<Task>, registry: Registry) {
    forall k :: k in m.values ==>
      && m.values[k].name == k
      && "requestTaskEnd" in m.values[k].component.props
      && m.values[k].component.props["requestTaskEnd"] == EndTask(registry, k)
      && "requestTaskStart" in m.values[k].component.props
      && m.values[k].component.props["requestTaskStart"] == StartSibling
  }

  /** The map the mount effect builds, one `set` per initial task in order. */
  function InitialTaskMap(initialTasks: seq<Task>): (m: JsMap<Task>)
    ensures Valid(m)
    decreases |initialTasks|
  {
    if initialTasks == [] then Empty()
    else
      var last := initialTasks[|initialTasks| - 1];
      Set(InitialTaskMap(initialTasks[..|initialTasks| - 1]), last.name, Prepared(last, Initial))
  }

  /** The mount effect's loop: each initial task filed in turn under its name. */
  method FileInitialTasks(initialTasks: seq<Task>) returns (newTasks: JsMap<Task>)
    ensures newTasks == InitialTaskMap(initialTasks)
  {
    newTasks := Empty();
    var i := 0;
    while i < |initialTasks|
      invariant 0 <= i <= |initialTasks|
      invariant newTasks == InitialTaskMap(initialTasks[..i])
    {
      var task := initialTasks[i];
      var filed := initialTasks[..i + 1];
      assert filed[..|filed| - 1] == initialTasks[..i] && filed[|filed| - 1] == task;
      assert InitialTaskMap(filed) == Set(InitialTaskMap(initialTasks[..i]), task.name, Prepared(task, Initial));
      newTasks := Set(newTasks, task.name, Prepared(task, Initial));
      i := i + 1;
    }
    assert initialTasks[..i] == initialTasks;
  }

  lemma {:induction false} InitialTaskMapOwns(initialTasks: seq<Task>)
    ensures OwnsCallbacks(InitialTaskMap(initialTasks), Initial)
    decreases |initialTasks|
  {
    if initialTasks != [] {
      InitialTaskMapOwns(initialTasks[..|initialTasks| - 1]);
    }
  }

  /** Whether some task in `ts` has this name. */
  ghost predicate Named(ts: seq<Task>, name: string) {
    exists i :: 0 <= i < |ts| && ts[i].name == name
  }

  /** The position of the last task called `name`. */
  function LastNamed(ts: seq<Task>, name: string): (i: nat)
    requires Named(ts, name)
    ensures i < |ts| && ts[i].name == name
    ensures forall j :: i < j < |ts| ==> ts[j].name != name
  {
    if ts[|ts| - 1].name == name then |ts| - 1
    else
      assert Named(ts[..|ts| - 1], name) by {
        var i :| 0 <= i < |ts| && ts[i].name == name;
        assert ts[..|ts| - 1][i].name == name;
      }
      LastNamed(ts[..|ts| - 1], name)
  }

  lemma NamedSplit(ts: seq<Task>, name: string)
    requires ts != []
    ensures Named(ts, name) <==> Named(ts[..|ts| - 1], name) || ts[|ts| - 1].name == name
  {
    var init := ts[..|ts| - 1];
    if Named(init, name) {
      var i :| 0 <= i < |init| && init[i].name == name;
      assert ts[i].name == name;
    }
    if Named(ts, name) && ts[|ts| - 1].name != name {
      var i :| 0 <= i < |ts| && ts[i].name == name;
      assert init[i] == ts[i];
    }
  }

  lemma InitialTaskMapStep(ts: seq<Task>)
    requires ts != []
    ensures InitialTaskMap(ts).values
      == InitialTaskMap(ts[..|ts| - 1]).values[ts[|ts| - 1].name := Prepared(ts[|ts| - 1], Initial)]
  {
  }

  /** The registry built at mount holds exactly the names of the initial tasks. */
  lemma {:induction false} InitialTaskMapNames(initialTasks: seq<Task>, name: string)
    ensures name in InitialTaskMap(initialTasks).values <==> Named(initialTasks, name)
    decreases |initialTasks|
  {
    if initialTasks != [] {
      InitialTaskMapNames(initialTasks[..|initialTasks| - 1], name);
      InitialTaskMapStep(initialTasks);
      NamedSplit(initialTasks, name);
    }
  }

  /** For a name given more than once, the registry built at mount keeps the later task. */
  lemma {:induction false} InitialTaskMapLastWins(initialTasks: seq<Task>, name: string)
    requires Named(initialTasks, name)
    ensures name in InitialTaskMap(initialTasks).values
    ensures InitialTaskMap(initialTasks).values[name] == Prepared(initialTasks[LastNamed(initialTasks, name)], Initial)
    decreases |initialTasks|
  {
    InitialTaskMapNames(initialTasks, name);
    InitialTaskMapStep(initialTasks);
    NamedSplit(initialTasks, name);
    if initialTasks[|initialTasks| - 1].name != name {
      InitialTaskMapLastWins(initialTasks[..|initialTasks| - 1], name);
    }
  }

  /**
   * `requestSiblingTaskStart`'s state update: a copy of the siblings (empty when
   * there were none) with the task added, unless a task of that name runs already.
   */
  function StartSiblingUpdate(prev: Option<JsMap<Task>>, task: Task): (r: JsMap<Task>)
    requires prev.Some? ==> Valid(prev.value)
    ensures Valid(r)
  {
    var m := if prev.Some? then prev.value else Empty();
    if Get(m, task.name).None? then Set(m, task.name, Prepared(task, Sibling)) else m
  }

  /** Starting a sibling files it under its name, or keeps the one already running: the first start wins. */
  lemma StartSiblingFirstWins(prev: Option<JsMap<Task>>, task: Task)
    requires prev.Some? ==> Valid(prev.value)
    ensures var r := StartSiblingUpdate(prev, task);
      && task.name in r.values
      && (prev.Some? && task.name in prev.value.values ==> r == prev.value)
      && (prev.None? || task.name !in prev.value.values ==> r.values[task.name] == Prepared(task, Sibling))
      && (forall k :: prev.Some? && k in prev.value.values ==> k in r.values && r.values[k] == prev.value.values[k])
  {
  }

  lemma StartSiblingOwns(prev: Option<JsMap<Task>>, task: Task)
    requires prev.Some? ==> Valid(prev.value) && OwnsCallbacks(prev.value, Sibling)
    ensures OwnsCallbacks(StartSiblingUpdate(prev, task), Sibling)
  {
  }

  /** Ending preserves the ownership of the remaining callbacks. */
  lemma EndTaskOwns(tasks: Option<JsMap<Task>>, name: string, registry: Registry)
    requires tasks.Some? ==> Valid(tasks.value) && OwnsCallbacks(tasks.value, registry)
    ensures var r := EndTaskMaybe(tasks, name); r.Some? ==> OwnsCallbacks(r.value, registry)
  {
  }

  /** `Array.from(tasks).map(([name, { component }]) => ...)`: each entry's name and component. */
  function RenderEntries(tasks: Option<JsMap<Task>>): (r: seq<(string, Component)>)
    requires tasks.Some? ==> Valid(tasks.value)
    ensures tasks.None? ==> r == []
    ensures tasks.Some? ==> |r| == |tasks.value.keys|
    ensures tasks.Some? ==> forall i :: 0 <= i < |r| ==>
      r[i] == (tasks.value.keys[i], tasks.value.values[tasks.value.keys[i]].component)
  {
    if tasks.None? then []
    else
      var es := Entries(tasks.value);
      seq(|es|, i requires 0 <= i < |es| => (es[i].0, es[i].1.component))
  }

  class Runner {
    const initialTasks: seq<Task>
    var processedInitialTasks: bool
    var tasks: Option<JsMap<Task>>
    var siblingTasks: Option<JsMap<Task>>

    ghost predicate Valid()
      reads this
    {
      && (tasks.Some? ==> JsMaps.Valid(tasks.value) && OwnsCallbacks(tasks.value, Initial))
      && (siblingTasks.Some? ==> JsMaps.Valid(siblingTasks.value) && OwnsCallbacks(siblingTasks.value, Sibling))
      && (tasks.Some? ==> processedInitialTasks)
    }

    constructor(initialTasks: seq<Task>)
      ensures Valid()
      ensures this.initialTasks == initialTasks
      ensures !processedInitialTasks && tasks.None? && siblingTasks.None?
    {
      this.initialTasks := initialTasks;
      processedInitialTasks := false;
      tasks := None;
      siblingTasks := None;
    }

    /** `requestInitialTaskEnd`. */
    method RequestInitialTaskEnd(taskName: string)
      requires Valid()
      modifies this
      ensures Valid()
      ensures tasks == EndTaskMaybe(old(tasks), taskName)
      ensures siblingTasks == old(siblingTasks) && processedInitialTasks == old(processedInitialTasks)
    {
      EndTaskOwns(tasks, taskName, Initial);
      tasks := EndTaskMaybe(tasks, taskName);
    }

    /** `requestSiblingTaskEnd`. */
    method RequestSiblingTaskEnd(taskName: string)
      requires Valid()
      modifies this
      ensures Valid()
      ensures siblingTasks == EndTaskMaybe(old(siblingTasks), taskName)
      ensures tasks == old(tasks) && processedInitialTasks == old(processedInitialTasks)
    {
      EndTaskOwns(siblingTasks, taskName, Sibling);
      siblingTasks := EndTaskMaybe(siblingTasks, taskName);
    }

    /** `requestSiblingTaskStart`. */
    method RequestSiblingTaskStart(task: Task)
      requires Valid()
      modifies this
      ensures Valid()
      ensures siblingTasks == Some(StartSiblingUpdate(old(siblingTasks), task))
      ensures tasks == old(tasks) && processedInitialTasks == old(processedInitialTasks)
    {
      StartSiblingOwns(siblingTasks, task);
      siblingTasks := Some(StartSiblingUpdate(siblingTasks, task));
    }

    /**
     * Calling a callback the runner handed out: an end callback ends its
     * task in its own registry, the start callback starts `task` as a sibling.
     */
    method Invoke(callback: PropValue, task: Task)
      requires Valid()
      requires callback.EndTask? || callback.StartSibling?
      modifies this
      ensures Valid()
      ensures callback.EndTask? && callback.registry == Initial ==>
        tasks == EndTaskMaybe(old(tasks), callback.taskName) && siblingTasks == old(siblingTasks)
      ensures callback.EndTask? && callback.registry == Sibling ==>
        siblingTasks == EndTaskMaybe(old(siblingTasks), callback.taskName) && tasks == old(tasks)
      ensures callback.StartSibling? ==>
        siblingTasks == Some(StartSiblingUpdate(old(siblingTasks), task)) && tasks == old(tasks)
    {
      match callback
      case EndTask(registry, name) =>
        if registry == Initial {
          RequestInitialTaskEnd(name);
        } else {
          RequestSiblingTaskEnd(name);
        }
      case StartSibling =>
        RequestSiblingTaskStart(task);
    }

    /**
     * The mount effect: when there are initial tasks and none have been
     * registered yet, file each of them, in order, then mark them processed.
     */
    method InitialTasksEffect()
      requires Valid()
      modifies this
      ensures Valid()
      ensures if |initialTasks| > 0 && old(tasks).None? && !old(processedInitialTasks)
        then tasks == Some(InitialTaskMap(initialTasks)) && processedInitialTasks
        else tasks == old(tasks) && processedInitialTasks == old(processedInitialTasks)
      ensures siblingTasks == old(siblingTasks)
    {
      if |initialTasks| > 0 && tasks.None? && !processedInitialTasks {
        var newTasks := FileInitialTasks(initialTasks);
        InitialTaskMapOwns(initialTasks);
        tasks := Some(newTasks);
        processedInitialTasks := true;
      }
    }

    /** What the runner renders: the initial tasks' components, then the siblings', each keyed by name. */
    function Rendered(): (r: seq<(string, Component)>)
      requires Valid()
      reads this
      ensures |r| == |RenderEntries(tasks)| + |RenderEntries(siblingTasks)|
      ensures r[..|RenderEntries(tasks)|] == RenderEntries(tasks)
      ensures r[|RenderEntries(tasks)|..] == RenderEntries(siblingTasks)
    {
      RenderEntries(tasks) + RenderEntries(siblingTasks)
    }
  }

  /** Every task handed an end callback by the runner removes itself, and only itself, when it calls it. */
  lemma OwnEndCallbackRemovesOwnTask(m: JsMap<Task>, registry: Registry, name: string)
    requires Valid(m) && OwnsCallbacks(m, registry) && name in m.values
    ensures var cb := m.values[name].component.props["requestTaskEnd"];
      && cb == EndTask(registry, name)
      && var r := EndTaskMaybe(Some(m), cb.taskName);
      && name !in r.value.values
      && (forall k :: k in m.values && k != name ==> k in r.value.values && r.value.values[k] == m.values[k])
  {
  }

  /** At mount the runner renders a name exactly when an initial task has it, and no name twice. */
  lemma MountRendersInitialTasks(initialTasks: seq<Task>, name: string)
    ensures var r := RenderEntries(Some(InitialTaskMap(initialTasks)));
      && ((exists i :: 0 <= i < |r| && r[i].0 == name) <==> Named(initialTasks, name))
      && (forall i, j :: 0 <= i < j < |r| ==> r[i].0 != r[j].0)
  {
    InitialTaskMapNames(initialTasks, name);
    var m := InitialTaskMap(initialTasks);
    var r := RenderEntries(Some(m));
    if name in m.values {
      var i :| 0 <= i < |m.keys| && m.keys[i] == name;
      assert r[i].0 == name;
    }
  }
}
