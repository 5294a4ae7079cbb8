/** Runs of the whole system: reconciles of any policies interleaved with everything else that happens. */
module Protocol {
  import opened Kube
  import opened Firmware

  datatype Event =
    | Reconciled(c: Ctx)
    | JobProgress(id: JobId, job: Job)
    | JobDeleted(id: JobId)
    | PodsChanged(pods: seq<Pod>)
    | SchedulingSet(node: string, unschedulable: bool)
    | CordonEdited(node: string, mark: CordonMark)
    | LabelEdited(node: string, key: LabelKey, value: Option<string>)
    | NodeAdded(name: string, record: Node)
    | NodeRemoved(name: string)
    | PolicyRemoved(cr: string)   // the policy is deleted, and its status with it

  function EditNode(w: World, name: string, n: Node): World {
    w.(nodes := w.nodes[name := n])
  }

  function Occur(w: World, e: Event): World {
    match e
    case Reconciled(c) => Reconcile(w, c).w
    case JobProgress(id, job) => w.(jobs := MoveJob(w.jobs, id, job))
    case JobDeleted(id) => w.(jobs := w.jobs - {id})
    case PodsChanged(pods) => w.(pods := pods)
    case SchedulingSet(name, b) =>
      if name in w.nodes then EditNode(w, name, w.nodes[name].(unschedulable := b)) else w
    case CordonEdited(name, mark) =>
      if name in w.nodes then EditNode(w, name, w.nodes[name].(cordon := mark)) else w
    case LabelEdited(name, key, value) =>
      if name !in w.nodes then w
      else
        var labels := w.nodes[name].labels;
        EditNode(w, name, w.nodes[name].(labels := if value.Some? then labels[key := value.value] else labels - {key}))
    case NodeAdded(name, n) => if name in w.nodes then w else EditNode(w, name, n)
    case NodeRemoved(name) => w.(nodes := w.nodes - {name})
    case PolicyRemoved(cr) => w.(status := w.status - {cr})
  }

  function Run(w: World, es: seq<Event>): World {
    if es == [] then w else Occur(Run(w, es[..|es| - 1]), es[|es| - 1])
  }
}
