/**
 * What the endpoints receive from outside the core: the error taxonomy of the
 * managers, the request as the endpoint superclass reads it, the server
 * configuration, the foreign helpers (serialisation, checksum, dates), and the
 * record of what a handler did beyond the response (manager calls, the
 * deposit, cleanups, how it exited).
 */
module Sword {
  import opened Wrappers
  import opened Atom

  /** Error URIs of the protocol; the two the endpoints raise themselves are named. */
  datatype ErrorUri = MethodNotAllowed | BadRequest | OtherError(uri: string)

  datatype SwordError = SwordError(uri: ErrorUri, message: string)

  /** The three checked exceptions a manager or a superclass helper may throw. */
  datatype Raised =
    | SwordFailure(error: SwordError)   // SwordError
    | ServerFailure(message: string)    // SwordServerException
    | AuthFailure                       // SwordAuthException past the authentication gate

  /** A collaborator call: it returns a value or throws. */
  datatype Outcome<T> = Ok(value: T) | Throws(raised: Raised)

  /** getAuthCredentials: credentials, or a SwordAuthException that may ask the client to retry. */
  datatype AuthResult = Authenticated | Refused(retry: bool, message: string)

  /**
   * The request as the endpoint superclass presents it. `credentials` is
   * getAuthCredentials for a given allow-unauthenticated flag; the two
   * deposit-property readers are given by the exception they throw, if any.
   */
  datatype Request = Request(
    credentials: bool -> AuthResult,
    url: string,
    accept: map<string, string>,
    contentType: string,
    contentLength: int,
    inProgress: Outcome<bool>,
    metadataRelevant: Outcome<bool>,
    entryProperties: Option<Raised>,
    binaryProperties: Option<Raised>)

  /** The configuration switches the endpoints read; `generator` is getGenerator's element, if any. */
  datatype Config = Config(
    returnDepositReceipt: bool,
    allowUnauthenticatedMediaAccess: bool,
    generator: Option<Element>)

  /**
   * Foreign helpers: Abdera's writeTo as `serialize`, ChecksumUtils.hash as
   * `md5`, SimpleDateFormat as `httpDate`, and the current time `now`.
   */
  datatype Toolkit = Toolkit(
    serialize: Entry -> string,
    md5: string -> string,
    httpDate: int -> string,
    now: int)

  /** The deposit handed to a manager: which headers and which body readers were applied. */
  datatype Deposit = Deposit(
    inProgress: Option<bool>,
    metadataRelevant: Option<bool>,
    fromEntry: bool,
    fromBinary: bool)

  const NewDeposit: Deposit := Deposit(None, None, false, false)

  /** A call into a container, statement or media-resource manager, with what it was given. */
  datatype Call =
    | IsStatementRequest(iri: string, accept: map<string, string>)
    | GetStatement(iri: string, accept: map<string, string>)
    | GetEntry(iri: string, accept: map<string, string>)
    | ReplaceMetadata(iri: string, deposit: Deposit)
    | AddMetadata(iri: string, deposit: Deposit)
    | UseHeaders(iri: string, deposit: Deposit)
    | AddResources(iri: string, deposit: Deposit)
    | DeleteContainer(iri: string)
    | GetMediaResourceRepresentation(iri: string, accept: map<string, string>)
    | ReplaceMediaResource(iri: string, deposit: Deposit)
    | AddResource(iri: string, deposit: Deposit)
    | DeleteMediaResource(iri: string)

  /** How a handler ends: normally, with a ServletException, or with a NullPointerException. */
  datatype Exit = Returned | ServletFault(message: string) | NullDereference

  /**
   * What a handler did besides the response: the manager calls in order, the
   * deposit it built, how many times cleanup ran, how it exited, the exception
   * its catch blocks handled, and the entry it rendered from a receipt.
   */
  datatype Trace = Trace(
    calls: seq<Call>,
    deposit: Option<Deposit>,
    cleanups: nat,
    exit: Exit,
    caught: Option<Raised>,
    rendered: Option<Entry>)
}
