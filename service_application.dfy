/**
 * The citizen's application form: a department choice that loads the
 * department's services, a service choice, a description, a list of attached
 * documents, and a multipart submission.
 */
module ServiceApplication {
  import opened Wrappers
  import opened Js
  import opened Domain
  import opened Seqs
  import opened Api

  const EmptyForm: Obj := map["department_id" := Str(""), "service_id" := Str(""), "description" := Str("")]

  const RequestsPath := "/citizen/requests"
  const SubmittedText := "Application submitted successfully!"
  const SubmitFailed := "Failed to submit application"

  /** The departments offered when they cannot be fetched. */
  const MockDepartments: seq<Obj> := [
    map["id" := Num(1), "name" := Str("Department of Interior")],
    map["id" := Num(2), "name" := Str("Department of Commerce")]]

  /** The services offered when a department's services cannot be fetched. */
  const MockServices: seq<Obj> := [
    map["id" := Num(1), "name" := Str("Business License"), "fee" := Num(100)],
    map["id" := Num(2), "name" := Str("ID Card Renewal"), "fee" := Num(50)]]

  /**
   * The multipart body of a submission: the service id, then the description,
   * then one "documents" entry per attached file in list order. The department
   * is not sent.
   */
  function Payload(form: Obj, files: seq<File>): (entries: seq<FormEntry>)
    ensures |entries| == 2 + |files|
    ensures entries[0] == TextEntry("service_id", Get(form, "service_id"))
    ensures entries[1] == TextEntry("description", Get(form, "description"))
    ensures forall i :: 0 <= i < |files| ==> entries[2 + i] == FileEntry("documents", files[i])
  {
    [TextEntry("service_id", Get(form, "service_id")), TextEntry("description", Get(form, "description"))]
      + seq(|files|, i requires 0 <= i < |files| => FileEntry("documents", files[i]))
  }

  /** No entry of the payload carries the department. */
  lemma PayloadOmitsDepartment(form: Obj, files: seq<File>, i: int)
    requires 0 <= i < |Payload(form, files)|
    ensures Payload(form, files)[i].key != "department_id"
  {
    if i >= 2 {
      assert Payload(form, files)[2 + (i - 2)] == FileEntry("documents", files[i - 2]);
    }
  }

  /** `new FormData()` filled by two appends and a `forEach` over the files. */
  method BuildPayload(form: Obj, files: seq<File>) returns (entries: seq<FormEntry>)
    ensures entries == Payload(form, files)
  {
    entries := [];
    entries := entries + [TextEntry("service_id", Get(form, "service_id"))];
    entries := entries + [TextEntry("description", Get(form, "description"))];
    for i := 0 to |files|
      invariant |entries| == 2 + i
      invariant entries[0] == TextEntry("service_id", Get(form, "service_id"))
      invariant entries[1] == TextEntry("description", Get(form, "description"))
      invariant forall j :: 0 <= j < i ==> entries[2 + j] == FileEntry("documents", files[j])
    {
      entries := entries + [FileEntry("documents", files[i])];
    }
    var expected := Payload(form, files);
    assert forall k :: 2 <= k < |entries| ==> entries[k] == expected[2 + (k - 2)];
  }

  /** The services the department effect loads: the received ones, or the samples. */
  function FetchedServices(o: Outcome<ListBody>): seq<Obj> {
    if o.Response? then ReceivedItems(o.body) else MockServices
  }

  /** The department effect fires when `department_id` changes to a truthy value. */
  predicate LoadsServices(before: Obj, after: Obj) {
    Get(after, "department_id") != Get(before, "department_id") && Truthy(Get(after, "department_id"))
  }

  /** Editing any other field never loads services; clearing the department never does either. */
  lemma OnlyDepartmentLoadsServices(form: Obj, name: string, value: string)
    ensures name != "department_id" ==> !LoadsServices(form, form[name := Str(value)])
    ensures name == "department_id" && value == "" ==> !LoadsServices(form, form[name := Str(value)])
    ensures name == "department_id" && value != "" ==>
      (LoadsServices(form, form[name := Str(value)]) <==> Get(form, "department_id") != Str(value))
  {
  }

  class ApplicationPage {
    var departments: seq<Obj>
    var services: seq<Obj>
    var formData: Obj
    var files: seq<File>
    var loading: bool
    var effects: seq<Effect>

    /** The initial state; the department effect does not fire for the empty department. */
    constructor()
      ensures departments == [] && services == [] && formData == EmptyForm && files == []
      ensures !loading && effects == []
    {
      departments := [];
      services := [];
      formData := EmptyForm;
      files := [];
      loading := false;
      effects := [];
    }

    /** `fetchDepartments` on mount, with the backend's answer `o`; failures are silent. */
    method FetchDepartments(o: Outcome<ListBody>)
      modifies this
      ensures departments == (if o.Response? then ReceivedItems(o.body) else MockDepartments)
      ensures effects == old(effects) + [Call(GetDepartments)]
      ensures services == old(services) && formData == old(formData) && files == old(files) && loading == old(loading)
    {
      effects := effects + [Call(GetDepartments)];
      departments := if o.Response? then ReceivedItems(o.body) else MockDepartments;
    }

    /**
     * `handleChange` for the field `name`, followed by the department effect,
     * which fetches the chosen department's services (answered by `o`).
     */
    method HandleChange(name: string, value: string, o: Outcome<ListBody>)
      modifies this
      ensures formData == old(formData)[name := Str(value)]
      ensures LoadsServices(old(formData), formData) ==>
        && effects == old(effects) + [Call(GetServicesByDepartment(Str(value)))]
        && services == FetchedServices(o)
      ensures !LoadsServices(old(formData), formData) ==> effects == old(effects) && services == old(services)
      ensures departments == old(departments) && files == old(files) && loading == old(loading)
    {
      var before := formData;
      formData := formData[name := Str(value)];
      if LoadsServices(before, formData) {
        effects := effects + [Call(GetServicesByDepartment(Get(formData, "department_id")))];
        services := FetchedServices(o);
      }
    }

    /** `handleFileChange`: the chosen files go after the ones already attached. */
    method HandleFileChange(chosen: seq<File>)
      modifies this
      ensures files == old(files) + chosen
      ensures files[..|old(files)|] == old(files)
      ensures formData == old(formData) && services == old(services) && departments == old(departments)
      ensures loading == old(loading) && effects == old(effects)
    {
      files := files + chosen;
    }

    /** `removeFile(index)`: drop exactly the file at `index`; any other index changes nothing. */
    method RemoveFile(index: int)
      modifies this
      ensures files == RemoveAt(old(files), index)
      ensures formData == old(formData) && services == old(services) && departments == old(departments)
      ensures loading == old(loading) && effects == old(effects)
    {
      files := RemoveAt(files, index);
    }

    /**
     * `handleSubmit` with the backend's answer `o`: the payload is posted, and
     * the page goes to the request list only on success; loading is true during
     * the call and false after it.
     */
    method HandleSubmit(o: Outcome<Obj>)
      modifies this
      ensures effects == old(effects) + [Call(CreateRequest(Payload(old(formData), old(files))))]
        + (if o.Response? then [Toast(ToastSuccess, SubmittedText), Navigate(RequestsPath)] else [Toast(ToastError, SubmitFailed)])
      ensures !loading
      ensures formData == old(formData) && files == old(files) && services == old(services) && departments == old(departments)
    {
      loading := true;
      var payload := BuildPayload(formData, files);
      effects := effects + [Call(CreateRequest(payload))];
      if o.Response? {
        effects := effects + [Toast(ToastSuccess, SubmittedText), Navigate(RequestsPath)];
      } else {
        effects := effects + [Toast(ToastError, SubmitFailed)];
      }
      loading := false;
    }
  }

  /** Attaching one file and removing it again restores the attached list. */
  lemma AttachThenRemove(files: seq<File>, f: File)
    ensures RemoveAt(files + [f], |files|) == files
  {
    assert (files + [f])[..|files|] == files;
  }

  /** Removing a file keeps every other file in order: the file at `j` moves to `j - 1` past the removed index. */
  lemma RemoveKeepsOthers(files: seq<File>, index: int, j: int)
    requires 0 <= index < |files| && 0 <= j < |files| && j != index
    ensures j < index ==> RemoveAt(files, index)[j] == files[j]
    ensures j > index ==> RemoveAt(files, index)[j - 1] == files[j]
  {
  }
}
