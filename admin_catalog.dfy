/**
 * The two admin catalog pages, departments and services. Both keep a fetched
 * list, a modal with a create/edit form, and delete buttons guarded by a
 * confirmation; they differ only in their form's fields, their endpoints,
 * their toast texts and their sample data, which `Catalog` selects.
 */
module AdminCatalog {
  import opened Wrappers
  import opened Js
  import opened Domain
  import opened Api

  datatype Catalog = DepartmentCatalog | ServiceCatalog

  /** The fields of the catalog's form. */
  function FormKeys(catalog: Catalog): set<string> {
    match catalog
    case DepartmentCatalog => {"name", "description"}
    case ServiceCatalog => {"name", "description", "fee", "department_id"}
  }

  /** The form an "Add" click opens and `closeModal` restores: every field empty. */
  function EmptyForm(catalog: Catalog): (form: Obj)
    ensures form.Keys == FormKeys(catalog)
    ensures forall k :: k in form ==> form[k] == Str("")
  {
    match catalog
    case DepartmentCatalog => map["name" := Str(""), "description" := Str("")]
    case ServiceCatalog => map["name" := Str(""), "description" := Str(""), "fee" := Str(""), "department_id" := Str("")]
  }

  /** The catalog's sample records, shown when its list cannot be fetched. */
  function MockItems(catalog: Catalog): seq<Obj> {
    match catalog
    case DepartmentCatalog => [
      map["id" := Num(1), "name" := Str("Department of Interior"), "description" := Str("Internal affairs and administration")],
      map["id" := Num(2), "name" := Str("Department of Commerce"), "description" := Str("Business and trade services")]]
    case ServiceCatalog => [
      map["id" := Num(1), "name" := Str("Business License"), "fee" := Num(100), "department_name" := Str("Commerce"), "description" := Str("New business registration")],
      map["id" := Num(2), "name" := Str("ID Renewal"), "fee" := Num(50), "department_name" := Str("Interior"), "description" := Str("National ID renewal service")]]
  }

  /** The department choices of the service form when the departments cannot be fetched. */
  const MockDepartmentChoices: seq<Obj> := [
    map["id" := Num(1), "name" := Str("Commerce")],
    map["id" := Num(2), "name" := Str("Interior")]]

  function FetchCall(catalog: Catalog): ApiCall {
    match catalog
    case DepartmentCatalog => GetDepartments
    case ServiceCatalog => GetServices
  }

  /** The call `handleSubmit` makes: an update of the edited record's id, or a creation. */
  function SubmitCall(catalog: Catalog, editing: Option<Obj>, form: Obj): (call: ApiCall)
    ensures editing.Some? ==> call.UpdateDepartment? || call.UpdateService?
    ensures editing.None? ==> call.CreateDepartment? || call.CreateService?
    ensures editing.Some? && call.UpdateDepartment? ==> call.departmentId == Get(editing.value, "id") && call.department == form
    ensures editing.Some? && call.UpdateService? ==> call.serviceId == Get(editing.value, "id") && call.service == form
    ensures editing.None? && call.CreateDepartment? ==> call.department == form
    ensures editing.None? && call.CreateService? ==> call.service == form
    ensures call.UpdateDepartment? || call.CreateDepartment? <==> catalog == DepartmentCatalog
  {
    match catalog
    case DepartmentCatalog =>
      if editing.Some? then UpdateDepartment(Get(editing.value, "id"), form) else CreateDepartment(form)
    case ServiceCatalog =>
      if editing.Some? then UpdateService(Get(editing.value, "id"), form) else CreateService(form)
  }

  function DeleteCall(catalog: Catalog, id: Value): ApiCall {
    match catalog
    case DepartmentCatalog => DeleteDepartment(id)
    case ServiceCatalog => DeleteService(id)
  }

  function SavedText(catalog: Catalog, editing: bool): string {
    match catalog
    case DepartmentCatalog => if editing then "Department updated successfully" else "Department created successfully"
    case ServiceCatalog => if editing then "Service updated successfully" else "Service created successfully"
  }

  const SaveFailed := "Operation failed"

  function DeletedText(catalog: Catalog): string {
    match catalog
    case DepartmentCatalog => "Department deleted"
    case ServiceCatalog => "Service deleted"
  }

  function DeleteFailedText(catalog: Catalog): string {
    match catalog
    case DepartmentCatalog => "Failed to delete department"
    case ServiceCatalog => "Failed to delete"
  }

  /** The list a fetch yields: the received records, or the samples on failure. */
  function FetchedItems(catalog: Catalog, o: Outcome<ListBody>): seq<Obj> {
    if o.Response? then ReceivedItems(o.body) else MockItems(catalog)
  }

  /** The effects of a save: the call, then a success toast and the refetch call, or an error toast. */
  function SaveEffects(catalog: Catalog, editing: Option<Obj>, form: Obj, saved: bool): (effects: seq<Effect>)
    ensures |effects| == if saved then 3 else 2
    ensures effects[0] == Call(SubmitCall(catalog, editing, form))
    ensures saved ==> effects[1] == Toast(ToastSuccess, SavedText(catalog, editing.Some?)) && effects[2] == Call(FetchCall(catalog))
    ensures !saved ==> effects[1] == Toast(ToastError, SaveFailed)
  {
    [Call(SubmitCall(catalog, editing, form))]
      + if saved then [Toast(ToastSuccess, SavedText(catalog, editing.Some?)), Call(FetchCall(catalog))]
        else [Toast(ToastError, SaveFailed)]
  }

  class CatalogPage {
    const catalog: Catalog
    var items: seq<Obj>
    /** The department choices of the service form (unused on the department page). */
    var departmentChoices: seq<Obj>
    var showModal: bool
    var editing: Option<Obj>
    var formData: Obj
    var loading: bool
    var effects: seq<Effect>

    /** A closed modal always holds no edited record and the empty form. */
    ghost predicate Valid()
      reads this
    {
      !showModal ==> editing.None? && formData == EmptyForm(catalog)
    }

    constructor(catalog: Catalog)
      ensures Valid()
      ensures this.catalog == catalog
      ensures items == [] && departmentChoices == []
      ensures !showModal && editing.None? && formData == EmptyForm(catalog)
      ensures !loading && effects == []
    {
      this.catalog := catalog;
      items := [];
      departmentChoices := [];
      showModal := false;
      editing := None;
      formData := EmptyForm(catalog);
      loading := false;
      effects := [];
    }

    /** `fetchDepartments` or `fetchServices` for the page's own list; failures are silent. */
    method FetchItems(o: Outcome<ListBody>)
      modifies this
      ensures items == FetchedItems(catalog, o)
      ensures effects == old(effects) + [Call(FetchCall(catalog))]
      ensures departmentChoices == old(departmentChoices) && showModal == old(showModal)
      ensures editing == old(editing) && formData == old(formData) && loading == old(loading)
    {
      effects := effects + [Call(FetchCall(catalog))];
      items := FetchedItems(catalog, o);
    }

    /** The service page's `fetchDepartments`, filling the department choices. */
    method FetchDepartmentChoices(o: Outcome<ListBody>)
      requires catalog == ServiceCatalog
      modifies this
      ensures departmentChoices == (if o.Response? then ReceivedItems(o.body) else MockDepartmentChoices)
      ensures effects == old(effects) + [Call(GetDepartments)]
      ensures items == old(items) && showModal == old(showModal)
      ensures editing == old(editing) && formData == old(formData) && loading == old(loading)
    {
      effects := effects + [Call(GetDepartments)];
      departmentChoices := if o.Response? then ReceivedItems(o.body) else MockDepartmentChoices;
    }

    /** `openModal(record)`: edit a copy of `record`, or create from the empty form. */
    method OpenModal(record: Option<Obj>)
      modifies this
      ensures Valid()
      ensures showModal && editing == record
      ensures formData == (if record.Some? then record.value else EmptyForm(catalog))
      ensures items == old(items) && departmentChoices == old(departmentChoices)
      ensures loading == old(loading) && effects == old(effects)
    {
      editing := record;
      formData := if record.Some? then record.value else EmptyForm(catalog);
      showModal := true;
    }

    /** `closeModal`: hide the modal, forget the edited record, empty the form. */
    method CloseModal()
      modifies this
      ensures Valid()
      ensures !showModal && editing.None? && formData == EmptyForm(catalog)
      ensures items == old(items) && departmentChoices == old(departmentChoices)
      ensures loading == old(loading) && effects == old(effects)
    {
      showModal := false;
      editing := None;
      formData := EmptyForm(catalog);
    }

    /** An input of the open modal's form: `setFormData({ ...formData, [key]: value })`. */
    method SetField(key: string, value: Value)
      requires showModal && key in FormKeys(catalog)
      modifies this
      ensures Valid()
      ensures formData == old(formData)[key := value]
      ensures showModal && editing == old(editing)
      ensures items == old(items) && departmentChoices == old(departmentChoices)
      ensures loading == old(loading) && effects == old(effects)
    {
      formData := formData[key := value];
    }

    /**
     * `handleSubmit` with the save's outcome `o` and the refetch's outcome
     * `refetch`: on success the list is refetched and the modal closes; on
     * failure the modal stays open with the form as it was.
     */
    method HandleSubmit(o: Outcome<Obj>, refetch: Outcome<ListBody>)
      requires Valid() && showModal
      modifies this
      ensures Valid()
      ensures effects == old(effects) + SaveEffects(catalog, old(editing), old(formData), o.Response?)
      ensures o.Response? ==> !showModal && editing.None? && formData == EmptyForm(catalog) && items == FetchedItems(catalog, refetch)
      ensures o.Failure? ==> showModal && editing == old(editing) && formData == old(formData) && items == old(items)
      ensures !loading && departmentChoices == old(departmentChoices)
    {
      ghost var before, edited, form := effects, editing, formData;
      loading := true;
      var call := SubmitCall(catalog, editing, formData);
      effects := effects + [Call(call)];
      if o.Response? {
        var saved := Toast(ToastSuccess, SavedText(catalog, editing.Some?));
        effects := effects + [saved];
        FetchItems(refetch);
        CloseModal();
        assert SaveEffects(catalog, edited, form, true) == [Call(call), saved, Call(FetchCall(catalog))];
        assert effects == before + [Call(call), saved, Call(FetchCall(catalog))];
      } else {
        effects := effects + [Toast(ToastError, SaveFailed)];
        assert SaveEffects(catalog, edited, form, false) == [Call(call), Toast(ToastError, SaveFailed)];
      }
      loading := false;
    }

    /** `handleDelete(id)` with the user's answer to the confirmation and the outcomes of the delete and the refetch. */
    method HandleDelete(id: Value, confirmed: bool, o: Outcome<Obj>, refetch: Outcome<ListBody>)
      modifies this
      ensures !confirmed ==> effects == old(effects) && items == old(items)
      ensures confirmed && o.Response? ==>
        && effects == old(effects) + [Call(DeleteCall(catalog, id)), Toast(ToastSuccess, DeletedText(catalog)), Call(FetchCall(catalog))]
        && items == FetchedItems(catalog, refetch)
      ensures confirmed && o.Failure? ==>
        effects == old(effects) + [Call(DeleteCall(catalog, id)), Toast(ToastError, DeleteFailedText(catalog))] && items == old(items)
      ensures showModal == old(showModal) && editing == old(editing) && formData == old(formData)
      ensures loading == old(loading) && departmentChoices == old(departmentChoices)
    {
      if !confirmed {
        return;
      }
      effects := effects + [Call(DeleteCall(catalog, id))];
      if o.Response? {
        effects := effects + [Toast(ToastSuccess, DeletedText(catalog))];
        FetchItems(refetch);
      } else {
        effects := effects + [Toast(ToastError, DeleteFailedText(catalog))];
      }
    }
  }
}
