/**
 * src/system/tasks/utils.ts: the task records the runner keeps, and the
 * three helpers over them — whether a task is running, attaching the
 * runner's callbacks to a task's component, and ending a task by name.
 */
module Tasks {
  import opened Wrappers
  import opened JsMaps

  /** The two registries of the runner: tasks given at mount, and tasks started later by a task. */
  datatype Registry = Initial | Sibling

  /**
   * A property value on a task's component. The callbacks the runner hands
   * out are represented by what they do when called: end the named task in
   * one registry, or start a sibling task.
   */
  datatype PropValue =
    | Text(s: string)
    | EndTask(registry: Registry, taskName: string)
    | StartSibling
    | Other(id: nat)

  /** A React element: its type and its props. */
  datatype Component = Component(elementType: string, props: map<string, PropValue>)

  /** `ITask`. */
  datatype Task = Task(name: string, component: Component)

  /** `taskIsRunning` accepts a task or its name. */
  datatype TaskRef = ByName(name: string) | ByTask(task: Task)

  function RefName(t: TaskRef): string {
    match t
    case ByName(n) => n
    case ByTask(task) => task.name
  }

  /** `(tasks ?? []).map(({ name }) => name).includes(...)`. */
  function TaskIsRunning(tasks: Option<seq<Task>>, task: TaskRef): (r: bool)
    ensures tasks.None? ==> !r
    ensures tasks.Some? ==> (r <==> exists i :: 0 <= i < |tasks.value| && tasks.value[i].name == RefName(task))
  {
    var list := if tasks.Some? then tasks.value else [];
    var names := seq(|list|, i requires 0 <= i < |list| => list[i].name);
    assert RefName(task) in names <==> exists i :: 0 <= i < |list| && list[i].name == RefName(task) by {
      if exists i :: 0 <= i < |list| && list[i].name == RefName(task) {
        var i :| 0 <= i < |list| && list[i].name == RefName(task);
        assert names[i] == RefName(task);
      }
    }
    Includes(names, RefName(task))
  }

  /** `names.includes(name)`, scanning from the front. */
  function Includes(names: seq<string>, name: string): (r: bool)
    ensures r <==> name in names
  {
    if names == [] then false else names[0] == name || Includes(names[1..], name)
  }

  /** `{ name: task.name, ...props }`: an explicit "name" in `props` wins. */
  function NamedProps(taskName: string, props: map<string, PropValue>): map<string, PropValue> {
    map["name" := Text(taskName)] + props
  }

  /**
   * `setTasksComponentProps`: the same name, and a copy of the component
   * whose props are the old ones overridden by the task's name and `props`.
   */
  function SetTasksComponentProps(task: Task, props: map<string, PropValue>): (r: Task)
    ensures r.name == task.name
    ensures r.component.elementType == task.component.elementType
    ensures forall k :: k in props ==> k in r.component.props && r.component.props[k] == props[k]
    ensures "name" !in props ==> "name" in r.component.props && r.component.props["name"] == Text(task.name)
    ensures forall k :: k in task.component.props && k !in props && k != "name" ==>
      k in r.component.props && r.component.props[k] == task.component.props[k]
    ensures r.component.props.Keys == task.component.props.Keys + props.Keys + {"name"}
  {
    Task(task.name, Component(task.component.elementType, task.component.props + NamedProps(task.name, props)))
  }

  /** Attaching the same props twice is attaching them once. */
  lemma SetPropsIdempotent(task: Task, props: map<string, PropValue>)
    ensures SetTasksComponentProps(SetTasksComponentProps(task, props), props) == SetTasksComponentProps(task, props)
  {
    var once := SetTasksComponentProps(task, props);
    var twice := SetTasksComponentProps(once, props);
    assert twice.component.props == once.component.props;
  }

  /**
   * `endTaskMaybe`'s state update: when the task is present a copy without it,
   * otherwise the very same (possibly missing) map.
   */
  function EndTaskMaybe(tasks: Option<JsMap<Task>>, taskName: string): (r: Option<JsMap<Task>>)
    requires tasks.Some? ==> Valid(tasks.value)
    ensures r.Some? ==> Valid(r.value)
    ensures tasks.None? || taskName !in tasks.value.values ==> r == tasks
    ensures tasks.Some? && taskName in tasks.value.values ==>
      r.Some? && r.value.values == tasks.value.values - {taskName} && r.value.keys == Remove(tasks.value.keys, taskName)
  {
    if tasks.Some? && Get(tasks.value, taskName).Some? then Some(Delete(tasks.value, taskName)) else tasks
  }

  /** Ending a task leaves it absent and every other task as it was. */
  lemma EndTaskRemovesOnlyIt(tasks: JsMap<Task>, taskName: string)
    requires Valid(tasks)
    ensures var r := EndTaskMaybe(Some(tasks), taskName);
      && r.Some?
      && taskName !in r.value.values
      && (forall k :: k in tasks.values && k != taskName ==> k in r.value.values && r.value.values[k] == tasks.values[k])
  {
  }

  /** Ending the same task twice has the effect of ending it once. */
  lemma EndTaskIdempotent(tasks: Option<JsMap<Task>>, taskName: string)
    requires tasks.Some? ==> Valid(tasks.value)
    ensures EndTaskMaybe(EndTaskMaybe(tasks, taskName), taskName) == EndTaskMaybe(tasks, taskName)
  {
  }

  /** Ending two tasks gives the same registry in either order. */
  lemma EndTaskCommutes(tasks: Option<JsMap<Task>>, a: string, b: string)
    requires tasks.Some? ==> Valid(tasks.value)
    ensures EndTaskMaybe(EndTaskMaybe(tasks, a), b) == EndTaskMaybe(EndTaskMaybe(tasks, b), a)
  {
    if tasks.Some? {
      var m := tasks.value;
      RemoveCommutes(m.keys, a, b);
      assert m.values - {a} - {b} == m.values - {b} - {a};
    }
  }

  lemma {:induction false} RemoveCommutes(keys: seq<string>, a: string, b: string)
    ensures Remove(Remove(keys, a), b) == Remove(Remove(keys, b), a)
  {
    if keys != [] {
      RemoveCommutes(keys[1..], a, b);
      var head := keys[0];
      if head != a && head != b {
        assert Remove(keys, a) == [head] + Remove(keys[1..], a);
        assert Remove(keys, b) == [head] + Remove(keys[1..], b);
        assert ([head] + Remove(keys[1..], a))[1..] == Remove(keys[1..], a);
        assert ([head] + Remove(keys[1..], b))[1..] == Remove(keys[1..], b);
      } else if head == a && head != b {
        assert Remove(keys, b) == [head] + Remove(keys[1..], b);
        assert ([head] + Remove(keys[1..], b))[1..] == Remove(keys[1..], b);
      } else if head == b && head != a {
        assert Remove(keys, a) == [head] + Remove(keys[1..], a);
        assert ([head] + Remove(keys[1..], a))[1..] == Remove(keys[1..], a);
      }
    }
  }
}
