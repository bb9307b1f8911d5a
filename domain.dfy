/**
 * The records the client exchanges with the backend and the observable effects
 * of its handlers (calls to the backend, navigations, toasts, alerts).
 */
module Domain {
  import opened Wrappers
  import opened Js

  const CitizenRole := "citizen"
  const OfficerRole := "officer"
  const AdminRole := "admin"

  /** The logged-in user as the backend returns it; `role` is compared as a string. */
  datatype Identity = Identity(
    id: int,
    email: string,
    name: Option<string>,
    role: string,
    phone: Option<string>,
    address: Option<string>)

  /** A service request as listed to citizens and officers; text fields may be missing. */
  datatype ServiceRequest = ServiceRequest(
    id: int,
    serviceName: Option<string>,
    citizenName: Option<string>,
    description: Option<string>,
    status: string)

  /** A list of records fetched from the catalog endpoints (`response.data.departments`, `response.data.services`), which may be missing. */
  datatype ListBody = ListBody(items: Option<seq<Obj>>)

  /** The records a successful list fetch yields: none when the field is missing. */
  function ReceivedItems(body: ListBody): seq<Obj> {
    body.items.GetOr([])
  }

  /** A file chosen in the upload widget (its contents are opaque here). */
  datatype File = File(name: string, size: nat)

  /** One `FormData.append(key, value)` entry of a multipart request body. */
  datatype FormEntry = TextEntry(key: string, text: Value) | FileEntry(key: string, file: File)

  /**
   * Calls into the request, department and service endpoint groups. They are
   * issued by the pages and answered by an outcome the caller supplies.
   */
  datatype ApiCall =
    | GetRequests
    | GetRequest(requestId: string)
    | CreateRequest(payload: seq<FormEntry>)
    | UpdateRequestStatus(requestId: string, status: string, officerNotes: string)
    | GetDepartments
    | CreateDepartment(department: Obj)
    | UpdateDepartment(departmentId: Value, department: Obj)
    | DeleteDepartment(departmentId: Value)
    | GetServices
    | GetServicesByDepartment(departmentId: Value)
    | CreateService(service: Obj)
    | UpdateService(serviceId: Value, service: Obj)
    | DeleteService(serviceId: Value)

  datatype ToastKind = ToastSuccess | ToastError

  /** What a handler does that the user or the backend can observe, in order. */
  datatype Effect =
    | Call(call: ApiCall)
    | Navigate(path: string)
    | Toast(kind: ToastKind, text: string)
    | Alert(text: string)
    | Uncaught(reason: string)

  /** The effect log contains no backend call. */
  predicate NoCalls(effects: seq<Effect>) {
    forall i :: 0 <= i < |effects| ==> !effects[i].Call?
  }

  /** The effect log contains no navigation. */
  predicate NoNavigation(effects: seq<Effect>) {
    forall i :: 0 <= i < |effects| ==> !effects[i].Navigate?
  }
}
