/**
 * The terminate end event (ABProcessTaskEndCore): the task that ends a
 * process. It marks a `triggered` flag in its state and names no successors.
 */
module EndTask {
  import opened JsValues
  import opened Wrappers
  import opened ProcessElement

  /** `defaults()`: only a key and an icon; no category and no declared fields. */
  function EndDefaults(): (d: TaskDefaults)
    ensures d.key == "End" && d.icon == "stop"
    ensures d.category.None? && d.fields.None?
  {
    TaskDefaults("End", "stop", None, None)
  }

  /** `DiagramReplace()`: the replace-menu entry that turns an end event into a terminate end event. */
  function EndDiagramReplace(): (r: DiagramReplace)
    ensures r.caption == "Terminate End Event" && r.actionName == "replace-with-terminate-end"
    ensures r.className == "bpmn-icon-end-event-terminate"
    ensures r.targetType == "bpmn:EndEvent" && r.eventDefinitionType == "bpmn:TerminateEventDefinition"
  {
    DiagramReplace("Terminate End Event", "replace-with-terminate-end", "bpmn-icon-end-event-terminate",
                   "bpmn:EndEvent", "bpmn:TerminateEventDefinition")
  }

  const EndStateDefaults: TaskStateSlot := map["triggered" := Bool(false)]

  /** `initState(context, val)`: the state starts with `triggered: false` unless overridden. */
  function EndInitState(inst: Instance, taskId: string, val: TaskStateSlot): (r: Instance)
    ensures r.Keys == inst.Keys + {taskId}
    ensures taskId !in inst ==> "triggered" in MyState(r, taskId)
    ensures taskId !in inst && "triggered" !in val ==> MyState(r, taskId)["triggered"] == Bool(false)
    ensures taskId !in inst && "triggered" in val ==> MyState(r, taskId)["triggered"] == val["triggered"]
    ensures taskId in inst ==> r == inst
    ensures forall other :: other in inst && other != taskId ==> r[other] == inst[other]
  {
    InitSlot(inst, taskId, EndStateDefaults, val)
  }

  /** `nextTasks(instance)`: an end event has no successors, whatever the instance. */
  function NextTasks(inst: Instance): (r: seq<string>)
    ensures r == []
  {
    []
  }

  /** A freshly ended task's state is exactly the flag, untriggered. */
  lemma FreshEndState(inst: Instance, taskId: string)
    requires taskId !in inst
    ensures MyState(EndInitState(inst, taskId, map[]), taskId) == map["triggered" := Bool(false)]
  {
  }
}
