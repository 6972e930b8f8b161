/**
 * The media-resource endpoint (the EM-IRI): GET and HEAD of the content,
 * PUT to replace it, POST to add a file, and DELETE of the content.
 *
 * As for the container endpoint, each handler is a method on a
 * `MediaResourceAPI` object that updates the response in the servlet's
 * order, proved equal to a specification function over values.
 */
module Media {
  import opened Wrappers
  import opened Atom
  import opened Receipts
  import opened Sword
  import opened Servlet
  import opened Endpoint

  /** The SimpleZip packaging URI of the SWORD 2.0 profile. */
  const PackageSimpleZip: string := "http://purl.org/net/sword/package/SimpleZip"
  const OctetStream: string := "application/octet-stream"
  const NoEditIRIMessage: string := "No Edit-IRI found in Deposit Receipt; unable to send valid response"

  /** A representation from the media-resource manager; `content` is what its input stream yields. */
  datatype MediaResource = MediaResource(
    unpackaged: bool,
    packaging: Option<string>,
    contentType: Option<string>,
    lastModified: Option<int>,
    contentMD5: string,
    content: seq<bv8>)

  /** A missing or empty packaging is announced as SimpleZip. */
  function PackagingOrDefault(packaging: Option<string>): (p: string)
    ensures p != ""
    ensures packaging.Some? && packaging.value != "" ==> p == packaging.value
    ensures packaging.None? || packaging.value == "" ==> p == PackageSimpleZip
  {
    if packaging.None? || packaging.value == "" then PackageSimpleZip else packaging.value
  }

  /** A missing or empty content type is announced as application/octet-stream. */
  function ContentTypeOrDefault(contentType: Option<string>): (t: string)
    ensures t != ""
    ensures contentType.Some? && contentType.value != "" ==> t == contentType.value
    ensures contentType.None? || contentType.value == "" ==> t == OctetStream
  {
    if contentType.None? || contentType.value == "" then OctetStream else contentType.value
  }

  // ---------------------------------------------------------------------------
  // What each handler does, over values

  function GetAttempt(r0: Reply, req: Request, tk: Toolkit, sendBody: bool, resource: Outcome<MediaResource>): Attempt {
    var calls := [GetMediaResourceRepresentation(req.url, req.accept)];
    match resource
    case Throws(x) => Attempt(r0, Raising(x), None, calls, None, None)
    case Ok(m) =>
      var r := if !m.unpackaged then r0.WithHeader(PackagingHeader, PackagingOrDefault(m.packaging)) else r0;
      var r := r.WithHeader(ContentTypeHeader, ContentTypeOrDefault(m.contentType))
                .WithHeader(LastModifiedHeader, LastModified(m.lastModified, tk))
                .WithHeader(ContentMD5Header, m.contentMD5);
      Attempt(if sendBody then r.WithBody(Bytes(m.content)) else r, Completed, None, calls, None, None)
  }

  /** get authenticates with the configured allowance for unauthenticated media access. */
  function GetSpec(r0: Reply, req: Request, config: Config, tk: Toolkit, sendBody: bool,
                   resource: Outcome<MediaResource>): Handled
  {
    Gate(r0, req.credentials(config.allowUnauthenticatedMediaAccess), GetAttempt(r0, req, tk, sendBody, resource), false)
  }

  function PutAttempt(r0: Reply, req: Request, replaced: Outcome<ReceiptState>): Attempt {
    match req.binaryProperties
    case Some(x) => Attempt(r0, Raising(x), Some(NewDeposit), [], None, None)
    case None =>
      var deposit := NewDeposit.(fromBinary := true);
      var calls := [ReplaceMediaResource(req.url, deposit)];
      match replaced
      case Throws(x) => Attempt(r0, Raising(x), Some(deposit), calls, None, None)
      case Ok(s) =>
        match s.Location()
        case None => Attempt(r0, NullPointer, Some(deposit), calls, None, None)
        case Some(location) =>
          Attempt(r0.WithHeader(LocationHeader, location).WithStatus(StatusNoContent),
                  Completed, Some(deposit), calls, None, None)
  }

  function PutSpec(r0: Reply, req: Request, replaced: Outcome<ReceiptState>): Handled {
    Gate(r0, req.credentials(false), PutAttempt(r0, req, replaced), true)
  }

  /** The reply to a receipt after POST: 201 and Location, with the rendered receipt when asked for. */
  function PostReply(r0: Reply, config: Config, tk: Toolkit, deposit: Deposit, calls: seq<Call>,
                     s: ReceiptState, rendered: Entry): Attempt
  {
    match s.Location()
    case None => Attempt(r0, Raising(ServerFailure(NoEditIRIMessage)), Some(deposit), calls, None, Some(s))
    case Some(location) =>
      var r := r0.WithStatus(StatusCreated);
      if config.returnDepositReceipt && !s.empty then
        var r := r.WithHeader(ContentTypeHeader, EntryType)
                  .WithHeader(LocationHeader, location)
                  .WithBody(Text(tk.serialize(rendered)));
        Attempt(r, Completed, Some(deposit), calls, Some(rendered), Some(Generated(s, config)))
      else
        Attempt(r.WithHeader(LocationHeader, location), Completed, Some(deposit), calls, None, Some(s))
  }

  function PostAttempt(r0: Reply, req: Request, config: Config, tk: Toolkit,
                       received: Outcome<ReceiptState>, rendered: Entry): Attempt
  {
    if StartsWith(req.contentType, MultipartPrefix) then
      Attempt(r0, Raising(SwordFailure(SwordError(MethodNotAllowed, MultipartMessage))), Some(NewDeposit), [], None, None)
    else
      match req.binaryProperties
      case Some(x) => Attempt(r0, Raising(x), Some(NewDeposit), [], None, None)
      case None =>
        var deposit := NewDeposit.(fromBinary := true);
        match req.metadataRelevant
        case Throws(x) => Attempt(r0, Raising(x), Some(deposit), [], None, None)
        case Ok(relevant) =>
          var deposit := deposit.(metadataRelevant := Some(relevant));
          var calls := [AddResource(req.url, deposit)];
          match received
          case Throws(x) => Attempt(r0, Raising(x), Some(deposit), calls, None, None)
          case Ok(s) => PostReply(r0, config, tk, deposit, calls, s, rendered)
  }

  function PostSpec(r0: Reply, req: Request, config: Config, tk: Toolkit,
                    received: Outcome<ReceiptState>, rendered: Entry): Handled
  {
    Gate(r0, req.credentials(false), PostAttempt(r0, req, config, tk, received, rendered), true)
  }

  function DeleteAttempt(r0: Reply, req: Request, deleted: Option<Raised>): Attempt {
    var calls := [DeleteMediaResource(req.url)];
    match deleted
    case Some(x) => Attempt(r0, Raising(x), None, calls, None, None)
    case None => Attempt(r0.WithStatus(StatusNoContent), Completed, None, calls, None, None)
  }

  function DeleteSpec(r0: Reply, req: Request, deleted: Option<Raised>): Handled {
    Gate(r0, req.credentials(false), DeleteAttempt(r0, req, deleted), false)
  }

  // ---------------------------------------------------------------------------
  // The endpoint

  class MediaResourceAPI {
    const config: Config

    constructor (config: Config)
      ensures this.config == config
    {
      this.config := config;
    }

    /** addGenerator: the configured generator element joins the receipt's wrapped entry. */
    method AddGenerator(doc: DepositReceipt)
      modifies doc
      ensures doc.State() == Generated(old(doc.State()), config)
    {
      var generator := config.generator;
      if generator.Some? {
        doc.AddToWrappedEntry(generator.value);
      }
    }

    method Get(req: Request, tk: Toolkit, resp: Response, sendBody: bool, resource: Outcome<MediaResource>)
      returns (t: Trace)
      modifies resp
      ensures var h := GetSpec(old(resp.Value()), req, config, tk, sendBody, resource);
              resp.Value() == h.reply && t == h.trace
    {
      var allowUnauthenticated := config.allowUnauthenticatedMediaAccess;
      var auth := req.credentials(allowUnauthenticated);
      if auth.Refused? {
        t := Refuse(resp, auth.retry, auth.message);
        return;
      }
      var calls := [GetMediaResourceRepresentation(req.url, req.accept)];
      var stop := Completed;
      if resource.Throws? {
        stop := Raising(resource.raised);
      } else {
        var m := resource.value;
        if !m.unpackaged {
          resp.SetHeader(PackagingHeader, PackagingOrDefault(m.packaging));
        }
        resp.SetHeader(ContentTypeHeader, ContentTypeOrDefault(m.contentType));
        resp.SetHeader(LastModifiedHeader, LastModified(m.lastModified, tk));
        resp.SetHeader(ContentMD5Header, m.contentMD5);
        if sendBody {
          resp.Write(Bytes(m.content));
        }
      }
      t := Conclude(resp, stop, None, calls, None, false);
    }

    /** head is get without the body. */
    method Head(req: Request, tk: Toolkit, resp: Response, resource: Outcome<MediaResource>)
      returns (t: Trace)
      modifies resp
      ensures var h := GetSpec(old(resp.Value()), req, config, tk, false, resource);
              resp.Value() == h.reply && t == h.trace
    {
      t := Get(req, tk, resp, false, resource);
    }

    method Put(req: Request, resp: Response, replaced: Outcome<DepositReceipt>) returns (t: Trace)
      modifies resp
      ensures var h := PutSpec(old(resp.Value()), req, old(StateOf(replaced)));
              resp.Value() == h.reply && t == h.trace
    {
      var auth := req.credentials(false);
      if auth.Refused? {
        t := Refuse(resp, auth.retry, auth.message);
        return;
      }
      var iri := req.url;
      var deposit := NewDeposit;
      var calls := [];
      var stop := Completed;
      if req.binaryProperties.Some? {
        stop := Raising(req.binaryProperties.value);
      } else {
        deposit := deposit.(fromBinary := true);
        calls := [ReplaceMediaResource(iri, deposit)];
        if replaced.Throws? {
          stop := Raising(replaced.raised);
        } else {
          var location := replaced.value.GetLocation();
          if location.None? {
            stop := NullPointer;
          } else {
            resp.SetHeader(LocationHeader, location.value);
            resp.SetStatus(StatusNoContent);
          }
        }
      }
      t := Conclude(resp, stop, Some(deposit), calls, None, true);
    }

    /** The try block of post, up to the manager's receipt. */
    method PostTry(req: Request, tk: Toolkit, resp: Response, received: Outcome<DepositReceipt>)
      returns (stop: Stop, deposit: Deposit, calls: seq<Call>, rendered: Option<Entry>)
      modifies resp, ReceiptFrame(received)
      ensures var a := PostAttempt(old(resp.Value()), req, config, tk, old(StateOf(received)), RenderedOr(rendered));
              && resp.Value() == a.reply && stop == a.stop && Some(deposit) == a.deposit
              && calls == a.calls && rendered == a.rendered
              && (received.Ok? ==> received.value.State() == a.receipt.GetOr(old(received.value.State())))
      ensures rendered.Some? ==> received.Ok? && IsRenderingOf(rendered.value, received.value.State())
    {
      deposit, calls, rendered := NewDeposit, [], None;
      if StartsWith(req.contentType, MultipartPrefix) {
        stop := Raising(SwordFailure(SwordError(MethodNotAllowed, MultipartMessage)));
        return;
      } else {
        if req.binaryProperties.Some? {
          stop := Raising(req.binaryProperties.value);
          return;
        }
        deposit := deposit.(fromBinary := true);
      }
      if req.metadataRelevant.Throws? {
        stop := Raising(req.metadataRelevant.raised);
        return;
      }
      deposit := deposit.(metadataRelevant := Some(req.metadataRelevant.value));
      calls := [AddResource(req.url, deposit)];
      if received.Throws? {
        stop := Raising(received.raised);
        return;
      }
      var receipt := received.value;
      var location := receipt.GetLocation();
      if location.None? {
        stop := Raising(ServerFailure(NoEditIRIMessage));
        return;
      }
      resp.SetStatus(StatusCreated);
      if config.returnDepositReceipt && !receipt.empty {
        AddGenerator(receipt);
        resp.SetHeader(ContentTypeHeader, EntryType);
        resp.SetHeader(LocationHeader, location.value);
        var e := receipt.GetAbderaEntry();
        resp.Write(Text(tk.serialize(e)));
        rendered := Some(e);
      } else {
        resp.SetHeader(LocationHeader, location.value);
      }
      stop := Completed;
    }

    method Post(req: Request, tk: Toolkit, resp: Response, received: Outcome<DepositReceipt>)
      returns (t: Trace)
      modifies resp, ReceiptFrame(received)
      ensures var h := PostSpec(old(resp.Value()), req, config, tk, old(StateOf(received)), RenderedOr(t.rendered));
              && resp.Value() == h.reply && t == h.trace
              && (received.Ok? ==> received.value.State() == h.receipt.GetOr(old(received.value.State())))
      ensures t.rendered.Some? ==> received.Ok? && IsRenderingOf(t.rendered.value, received.value.State())
    {
      var auth := req.credentials(false);
      if auth.Refused? {
        t := Refuse(resp, auth.retry, auth.message);
        return;
      }
      var stop, deposit, calls, rendered := PostTry(req, tk, resp, received);
      t := Conclude(resp, stop, Some(deposit), calls, rendered, true);
    }

    method Delete(req: Request, resp: Response, deleted: Option<Raised>) returns (t: Trace)
      modifies resp
      ensures var h := DeleteSpec(old(resp.Value()), req, deleted);
              resp.Value() == h.reply && t == h.trace
    {
      var auth := req.credentials(false);
      if auth.Refused? {
        t := Refuse(resp, auth.retry, auth.message);
        return;
      }
      var iri := req.url;
      var stop := Completed;
      if deleted.Some? {
        stop := Raising(deleted.value);
      } else {
        resp.SetStatus(StatusNoContent);
      }
      t := Conclude(resp, stop, None, [DeleteMediaResource(iri)], None, false);
    }
  }
}
