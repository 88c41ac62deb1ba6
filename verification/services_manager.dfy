/** The services screen (src/components/ServicesManager.jsx): adding a service
    from the form, editing one through a draft copy, and deleting one. Unlike
    workers, no service is protected from deletion. */
module ServicesManager {
  import opened Records
  import opened Text

  datatype ServiceForm = ServiceForm(name: string, clientPrice: NumberInput, description: string)

  const EmptyServiceForm: ServiceForm := ServiceForm("", Empty, "")

  /** The edit draft: a copy of the service whose price is back in an input. */
  datatype ServiceDraft = ServiceDraft(id: int, name: string, clientPrice: NumberInput, description: string)

  /** The handlers' check: a name that is not blank after trimming, and a price entered. */
  predicate Complete(name: string, price: NumberInput) {
    Trim(name) != "" && price.Number?
  }

  /** `services.find(s => s.id === id)`: the first service with the id. */
  function FindService(ss: seq<Service>, id: int): (r: Option<Service>)
    ensures r.None? <==> forall i :: 0 <= i < |ss| ==> ss[i].id != id
    ensures r.Some? ==> exists i :: 0 <= i < |ss| && ss[i] == r.value && r.value.id == id
                                  && forall k :: 0 <= k < i ==> ss[k].id != id
  {
    if ss == [] then None
    else if ss[0].id == id then Some(ss[0])
    else
      var r := FindService(ss[1..], id);
      assert forall i :: 1 <= i < |ss| ==> ss[i] == ss[1..][i - 1];
      r
  }

  /** The service `handleAddService` builds. */
  function NewService(id: int, f: ServiceForm): (s: Service)
    requires f.clientPrice.Number?
    ensures s.id == id && s.name == Trim(f.name) && s.clientPrice == f.clientPrice.value
    ensures s.description == Trim(f.description)
  {
    Service(id, Trim(f.name), f.clientPrice.value, Trim(f.description))
  }

  /** `handleEditService`: the draft starts as the service itself. */
  function DraftOf(s: Service): ServiceDraft {
    ServiceDraft(s.id, s.name, Number(s.clientPrice), s.description)
  }

  /** The service `handleSaveEdit` writes back: the draft with its texts trimmed. */
  function EditedService(d: ServiceDraft): (s: Service)
    requires d.clientPrice.Number?
    ensures s.id == d.id && s.name == Trim(d.name) && s.clientPrice == d.clientPrice.value
    ensures s.description == Trim(d.description)
  {
    Service(d.id, Trim(d.name), d.clientPrice.value, Trim(d.description))
  }

  /** `services.map(s => s.id === e.id ? e : s)` */
  function ReplaceService(ss: seq<Service>, e: Service): (r: seq<Service>)
    ensures |r| == |ss|
    ensures forall i :: 0 <= i < |ss| && ss[i].id == e.id ==> r[i] == e
    ensures forall i :: 0 <= i < |ss| && ss[i].id != e.id ==> r[i] == ss[i]
  {
    if ss == [] then []
    else ReplaceService(ss[..|ss| - 1], e) + [if ss[|ss| - 1].id == e.id then e else ss[|ss| - 1]]
  }

  /** `services.filter(s => s.id !== id)` */
  function WithoutService(ss: seq<Service>, id: int): (r: seq<Service>)
    ensures |r| <= |ss|
    ensures forall i :: 0 <= i < |r| ==> r[i].id != id
  {
    if ss == [] then []
    else
      var last := ss[|ss| - 1];
      WithoutService(ss[..|ss| - 1], id) + (if last.id != id then [last] else [])
  }

  /** A service is kept exactly when its id differs from the deleted one. */
  lemma {:induction false} WithoutServiceMembers(ss: seq<Service>, id: int)
    ensures forall s :: s in WithoutService(ss, id) <==> s in ss && s.id != id
  {
    if ss != [] {
      var init := ss[..|ss| - 1];
      WithoutServiceMembers(init, id);
      assert ss == init + [ss[|ss| - 1]];
    }
  }

  /** Deleting keeps the relative order of the remaining services. */
  lemma {:induction false} WithoutServiceConcat(a: seq<Service>, b: seq<Service>, id: int)
    ensures WithoutService(a + b, id) == WithoutService(a, id) + WithoutService(b, id)
    decreases |b|
  {
    if b != [] {
      var last := b[|b| - 1];
      WithoutServiceConcat(a, b[..|b| - 1], id);
      assert (a + b)[..|a + b| - 1] == a + b[..|b| - 1];
      assert WithoutService(b, id) == WithoutService(b[..|b| - 1], id) + (if last.id != id then [last] else []);
    } else {
      assert a + b == a;
    }
  }

  /** Deleting shortens the list by exactly the services that carry the id. */
  lemma {:induction false} WithoutServiceCount(ss: seq<Service>, id: int)
    ensures |WithoutService(ss, id)| + |ServicesWithId(ss, id)| == |ss|
  {
    if ss != [] {
      var init := ss[..|ss| - 1];
      WithoutServiceCount(init, id);
    }
  }

  /** Deleting an id no service carries changes nothing. */
  lemma {:induction false} WithoutAbsentService(ss: seq<Service>, id: int)
    requires forall i :: 0 <= i < |ss| ==> ss[i].id != id
    ensures WithoutService(ss, id) == ss
  {
    if ss != [] {
      var init := ss[..|ss| - 1];
      WithoutAbsentService(init, id);
      assert ss == init + [ss[|ss| - 1]];
    }
  }

  /** The services that carry the id. */
  function ServicesWithId(ss: seq<Service>, id: int): seq<Service> {
    if ss == [] then []
    else ServicesWithId(ss[..|ss| - 1], id) + (if ss[|ss| - 1].id == id then [ss[|ss| - 1]] else [])
  }

  datatype DeleteOutcome = Deleted | Cancelled | NotFound

  class Manager {
    var services: seq<Service>
    var newService: ServiceForm
    var editingService: Option<ServiceDraft>

    constructor (services: seq<Service>)
      ensures this.services == services && newService == EmptyServiceForm && editingService == None
    {
      this.services := services;
      newService := EmptyServiceForm;
      editingService := None;
    }

    /** `handleAddService`, with `id` standing for `Date.now()`. */
    method AddService(id: int) returns (added: bool)
      modifies this`services, this`newService
      ensures added <==> Complete(old(newService).name, old(newService).clientPrice)
      ensures added ==> services == old(services) + [NewService(id, old(newService))] && newService == EmptyServiceForm
      ensures !added ==> services == old(services) && newService == old(newService)
    {
      if !Complete(newService.name, newService.clientPrice) {
        return false;
      }
      var service := NewService(id, newService);
      services := services + [service];
      newService := EmptyServiceForm;
      added := true;
    }

    /** `handleEditService` */
    method EditService(s: Service)
      modifies this`editingService
      ensures editingService == Some(DraftOf(s))
    {
      editingService := Some(DraftOf(s));
    }

    /** The cancel button of the edit row. */
    method CancelEdit()
      modifies this`editingService
      ensures editingService == None
    {
      editingService := None;
    }

    /** `handleSaveEdit`; the save button exists only while a draft is open. */
    method SaveEdit() returns (saved: bool)
      requires editingService.Some?
      modifies this`services, this`editingService
      ensures var d := old(editingService).value;
              saved <==> Complete(d.name, d.clientPrice)
      ensures saved ==> services == ReplaceService(old(services), EditedService(old(editingService).value))
                        && editingService == None
      ensures !saved ==> services == old(services) && editingService == old(editingService)
    {
      var d := editingService.value;
      if !Complete(d.name, d.clientPrice) {
        return false;
      }
      services := ReplaceService(services, EditedService(d));
      editingService := None;
      saved := true;
    }

    /** `handleDeleteService`, with the answer of the confirmation dialog as
        `confirmed`. Reading the name of a missing service throws before the
        dialog opens: that is `NotFound`. */
    method DeleteService(id: int, confirmed: bool) returns (outcome: DeleteOutcome)
      modifies this`services
      ensures FindService(old(services), id).None? ==> outcome == NotFound
      ensures FindService(old(services), id).Some? ==> outcome == if confirmed then Deleted else Cancelled
      ensures services == if outcome == Deleted then WithoutService(old(services), id) else old(services)
    {
      var service := FindService(services, id);
      if service.None? {
        return NotFound;
      }
      if !confirmed {
        return Cancelled;
      }
      services := WithoutService(services, id);
      outcome := Deleted;
    }
  }
}
