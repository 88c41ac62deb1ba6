/** The team screen (src/components/WorkersManager.jsx): adding a worker from the
    form, editing a worker through a draft copy, and deleting a worker, which is
    refused for the owner. */
module WorkersManager {
  import opened Records
  import opened Text

  datatype WorkerForm = WorkerForm(name: string, role: string, paymentRate: NumberInput)

  const EmptyWorkerForm: WorkerForm := WorkerForm("", "", Empty)

  /** The edit draft: a copy of the worker whose rate is back in an input. */
  datatype WorkerDraft = WorkerDraft(id: int, name: string, role: string, paymentRate: NumberInput, isOwner: bool)

  /** The handlers' check: neither name nor role blank after trimming, and a rate entered. */
  predicate Complete(name: string, role: string, rate: NumberInput) {
    Trim(name) != "" && Trim(role) != "" && rate.Number?
  }

  /** The worker `handleAddWorker` builds: never the owner. */
  function NewWorker(id: int, f: WorkerForm): (w: Worker)
    requires f.paymentRate.Number?
    ensures !w.isOwner && w.id == id
    ensures w.name == Trim(f.name) && w.role == Trim(f.role) && w.paymentRate == f.paymentRate.value
  {
    Worker(id, Trim(f.name), Trim(f.role), f.paymentRate.value, false)
  }

  /** `handleEditWorker`: the draft starts as the worker itself. */
  function DraftOf(w: Worker): WorkerDraft {
    WorkerDraft(w.id, w.name, w.role, Number(w.paymentRate), w.isOwner)
  }

  /** The worker `handleSaveEdit` writes back: the draft with name and role trimmed. */
  function EditedWorker(d: WorkerDraft): (w: Worker)
    requires d.paymentRate.Number?
    ensures w.id == d.id && w.isOwner == d.isOwner
    ensures w.name == Trim(d.name) && w.role == Trim(d.role) && w.paymentRate == d.paymentRate.value
  {
    Worker(d.id, Trim(d.name), Trim(d.role), d.paymentRate.value, d.isOwner)
  }

  /** Editing a worker without changing anything gives back the same worker,
      as long as its name and role were already trimmed. */
  lemma EditRoundTrip(w: Worker)
    requires Trim(w.name) == w.name && Trim(w.role) == w.role
    ensures EditedWorker(DraftOf(w)) == w
  {
  }

  /** `workers.map(w => w.id === e.id ? e : w)` */
  function ReplaceWorker(ws: seq<Worker>, e: Worker): (r: seq<Worker>)
    ensures |r| == |ws|
    ensures forall i :: 0 <= i < |ws| && ws[i].id == e.id ==> r[i] == e
    ensures forall i :: 0 <= i < |ws| && ws[i].id != e.id ==> r[i] == ws[i]
  {
    if ws == [] then []
    else ReplaceWorker(ws[..|ws| - 1], e) + [if ws[|ws| - 1].id == e.id then e else ws[|ws| - 1]]
  }

  /** `workers.filter(w => w.id !== id)` */
  function WithoutWorker(ws: seq<Worker>, id: int): (r: seq<Worker>)
    ensures |r| <= |ws|
    ensures forall i :: 0 <= i < |r| ==> r[i].id != id
  {
    if ws == [] then []
    else
      var last := ws[|ws| - 1];
      WithoutWorker(ws[..|ws| - 1], id) + (if last.id != id then [last] else [])
  }

  /** A worker is kept exactly when its id differs from the deleted one. */
  lemma {:induction false} WithoutWorkerMembers(ws: seq<Worker>, id: int)
    ensures forall w :: w in WithoutWorker(ws, id) <==> w in ws && w.id != id
  {
    if ws != [] {
      var init := ws[..|ws| - 1];
      WithoutWorkerMembers(init, id);
      assert ws == init + [ws[|ws| - 1]];
    }
  }

  /** Deleting keeps the relative order of the remaining workers. */
  lemma {:induction false} WithoutWorkerConcat(a: seq<Worker>, b: seq<Worker>, id: int)
    ensures WithoutWorker(a + b, id) == WithoutWorker(a, id) + WithoutWorker(b, id)
    decreases |b|
  {
    if b != [] {
      var last := b[|b| - 1];
      WithoutWorkerConcat(a, b[..|b| - 1], id);
      assert (a + b)[..|a + b| - 1] == a + b[..|b| - 1];
      assert WithoutWorker(b, id) == WithoutWorker(b[..|b| - 1], id) + (if last.id != id then [last] else []);
    } else {
      assert a + b == a;
    }
  }

  /** With distinct ids, the guard on the first worker with the id is enough:
      deleting a worker that is not the owner never removes the owner. */
  lemma OwnerSurvivesDelete(ws: seq<Worker>, id: int, owner: Worker)
    requires forall i, j :: 0 <= i < j < |ws| ==> ws[i].id != ws[j].id
    requires FindWorker(ws, id).Some? && !FindWorker(ws, id).value.isOwner
    requires owner in ws && owner.isOwner
    ensures owner in WithoutWorker(ws, id)
  {
    WithoutWorkerMembers(ws, id);
  }

  datatype DeleteOutcome = Deleted | Cancelled | OwnerProtected | NotFound

  class Manager {
    var workers: seq<Worker>
    var newWorker: WorkerForm
    var editingWorker: Option<WorkerDraft>

    constructor (workers: seq<Worker>)
      ensures this.workers == workers && newWorker == EmptyWorkerForm && editingWorker == None
    {
      this.workers := workers;
      newWorker := EmptyWorkerForm;
      editingWorker := None;
    }

    /** `handleAddWorker`, with `id` standing for `Date.now()`. */
    method AddWorker(id: int) returns (added: bool)
      modifies this`workers, this`newWorker
      ensures added <==> Complete(old(newWorker).name, old(newWorker).role, old(newWorker).paymentRate)
      ensures added ==> workers == old(workers) + [NewWorker(id, old(newWorker))] && newWorker == EmptyWorkerForm
      ensures !added ==> workers == old(workers) && newWorker == old(newWorker)
    {
      if !Complete(newWorker.name, newWorker.role, newWorker.paymentRate) {
        return false;
      }
      var worker := NewWorker(id, newWorker);
      workers := workers + [worker];
      newWorker := EmptyWorkerForm;
      added := true;
    }

    /** `handleEditWorker` */
    method EditWorker(w: Worker)
      modifies this`editingWorker
      ensures editingWorker == Some(DraftOf(w))
    {
      editingWorker := Some(DraftOf(w));
    }

    /** The cancel button of the edit row. */
    method CancelEdit()
      modifies this`editingWorker
      ensures editingWorker == None
    {
      editingWorker := None;
    }

    /** `handleSaveEdit`; the save button exists only while a draft is open. */
    method SaveEdit() returns (saved: bool)
      requires editingWorker.Some?
      modifies this`workers, this`editingWorker
      ensures var d := old(editingWorker).value;
              saved <==> Complete(d.name, d.role, d.paymentRate)
      ensures saved ==> workers == ReplaceWorker(old(workers), EditedWorker(old(editingWorker).value))
                        && editingWorker == None
      ensures !saved ==> workers == old(workers) && editingWorker == old(editingWorker)
    {
      var d := editingWorker.value;
      if !Complete(d.name, d.role, d.paymentRate) {
        return false;
      }
      workers := ReplaceWorker(workers, EditedWorker(d));
      editingWorker := None;
      saved := true;
    }

    /** `handleDeleteWorker`, with the answer of the confirmation dialog as
        `confirmed`. Reading `isOwner` of a missing worker throws before anything
        changes: that is `NotFound`. */
    method DeleteWorker(id: int, confirmed: bool) returns (outcome: DeleteOutcome)
      modifies this`workers
      ensures FindWorker(old(workers), id).None? ==> outcome == NotFound
      ensures FindWorker(old(workers), id).Some? && FindWorker(old(workers), id).value.isOwner ==> outcome == OwnerProtected
      ensures FindWorker(old(workers), id).Some? && !FindWorker(old(workers), id).value.isOwner ==>
                outcome == if confirmed then Deleted else Cancelled
      ensures workers == if outcome == Deleted then WithoutWorker(old(workers), id) else old(workers)
    {
      var worker := FindWorker(workers, id);
      if worker.None? {
        return NotFound;
      }
      if worker.value.isOwner {
        return OwnerProtected;
      }
      if !confirmed {
        return Cancelled;
      }
      workers := WithoutWorker(workers, id);
      outcome := Deleted;
    }
  }
}
