/** Values shared by the provider service: the persisted entities (Provider,
    Regex, Action), the request bodies of create and update, the Validity
    answer and the service's error conditions. */
module Entities {

  datatype Option<+T> = None | Some(value: T)

  /** The exceptions the service raises, one constructor per kind. */
  datatype Error =
    | NotAcceptable(message: string)   // jakarta NotAcceptableException (HTTP 406)
    | Conflict(message: string)        // ConflictException (HTTP 409)
    | NotFound(message: string)        // jakarta NotFoundException (HTTP 404)
    | NullProvider                     // findById returned null and the entity was dereferenced

  datatype Result<+T> = Success(value: T) | Failure(error: Error)

  /** Approval status of a provider; only APPROVED providers take part in identification. */
  datatype ProviderStatus = Pending | Approved | Rejected | Deprecated

  type ActionId = string

  /** A row of the action table: its id, its name and its resolution mode. */
  datatype Action = Action(id: ActionId, name: string, mode: string)

  /** A provider entity: the ids of its actions and its regex texts in insertion order. */
  datatype Provider = Provider(
    id: nat,
    pidType: string,
    name: string,
    description: string,
    example: string,
    status: ProviderStatus,
    actions: set<ActionId>,
    regexes: seq<string>,
    createdBy: string)

  /** A regex entity: the pattern text and the provider that owns it. */
  datatype Regex = Regex(pattern: string, provider: Provider)

  /** Body of a create request. */
  datatype ProviderRequest = ProviderRequest(
    pidType: string,
    name: string,
    description: string,
    example: string,
    actions: set<ActionId>,
    regexes: seq<string>)

  /** Body of an update request; an empty field or collection means "keep". */
  datatype UpdateProviderRequest = UpdateProviderRequest(
    pidType: string,
    name: string,
    description: string,
    example: string,
    actions: set<ActionId>,
    regexes: seq<string>)

  /** Answer of the two validation endpoints. */
  datatype Validity = Validity(valid: bool, pidType: string)
}
