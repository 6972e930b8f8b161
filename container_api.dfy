/**
 * The container endpoint (the Edit-IRI): GET and HEAD of the deposit receipt
 * or the statement, PUT to replace metadata, POST to add metadata or
 * resources, and DELETE of the container.
 *
 * Each handler is a method on a `ContainerAPI` object that updates the
 * response in the order the servlet does; its contract ties the final
 * response, the trace and the receipt's final state to a specification
 * function over values (`GetSpec`, `PutSpec`, `PostSpec`, `DeleteSpec`).
 * The managers' answers are parameters: an `Outcome` per call, and for a
 * receipt the `DepositReceipt` object the manager returned.
 */
module Container {
  import opened Wrappers
  import opened Atom
  import opened Receipts
  import opened Sword
  import opened Servlet
  import opened Endpoint

  const WrongTypeMessage: string := "Content-Type must be 'application/atom+xml' or 'application/atom+xml;type=entry'"
  const PutEntryMessage: string := "PUT to Edit-IRI MUST be an Atom Entry"
  const NoLocationMessage: string := "No Location found in Deposit Receipt; unable to send valid response"

  /** A statement from the statement manager: its media type, date, and what writeTo writes. */
  datatype Statement = Statement(contentType: string, lastModified: Option<int>, serialized: string)

  // ---------------------------------------------------------------------------
  // Classification of PUT and POST bodies

  datatype PutRoute = PutMultipart | PutEntry | PutOther

  /** The PUT branches, tested in this order: multipart first, then an Atom entry. */
  function RoutePut(contentType: string): PutRoute {
    if StartsWith(contentType, MultipartPrefix) then PutMultipart
    else if StartsWith(contentType, AtomPrefix) then PutEntry
    else PutOther
  }

  /** The second content-type test inside the Atom branch of PUT. */
  predicate EntryTypeAccepted(contentType: string) {
    StartsWith(contentType, AtomPrefix) || StartsWith(contentType, EntryType)
  }

  datatype PostRoute = PostEntry | PostHeaders | PostBinary

  /** The POST branches: an Atom entry, else an empty body (headers only), else binary content. */
  function RoutePost(contentType: string, contentLength: int): PostRoute {
    if StartsWith(contentType, AtomPrefix) then PostEntry
    else if contentLength == 0 then PostHeaders
    else PostBinary
  }

  // ---------------------------------------------------------------------------
  // What each handler does, over values

  function GetAttempt(r0: Reply, req: Request, config: Config, tk: Toolkit, sendBody: bool,
                      isStatement: Outcome<bool>, statement: Outcome<Statement>,
                      entry: Outcome<ReceiptState>, rendered: Entry): Attempt
  {
    var probe := IsStatementRequest(req.url, req.accept);
    match isStatement
    case Throws(x) => Attempt(r0, Raising(x), None, [probe], None, None)
    case Ok(true) =>
      var calls := [probe, GetStatement(req.url, req.accept)];
      (match statement
       case Throws(x) => Attempt(r0, Raising(x), None, calls, None, None)
       case Ok(st) =>
         var r := r0.WithHeader(ContentTypeHeader, st.contentType)
                    .WithHeader(LastModifiedHeader, LastModified(st.lastModified, tk))
                    .WithHeader(ContentMD5Header, tk.md5(st.serialized));
         Attempt(if sendBody then r.WithBody(Text(st.serialized)) else r, Completed, None, calls, None, None))
    case Ok(false) =>
      var calls := [probe, GetEntry(req.url, req.accept)];
      match entry
      case Throws(x) => Attempt(r0, Raising(x), None, calls, None, None)
      case Ok(s) =>
        var s' := Generated(s, config);
        var r := r0.WithHeader(ContentTypeHeader, EntryType);
        match s'.Location()
        case None => Attempt(r, NullPointer, None, calls, None, Some(s'))
        case Some(location) =>
          var text := tk.serialize(rendered);
          var r := r.WithHeader(LocationHeader, location)
                    .WithHeader(LastModifiedHeader, LastModified(s'.lastModified, tk))
                    .WithHeader(ContentMD5Header, tk.md5(text));
          Attempt(if sendBody then r.WithBody(Text(text)) else r, Completed, None, calls, Some(rendered), Some(s'))
  }

  function GetSpec(r0: Reply, req: Request, config: Config, tk: Toolkit, sendBody: bool,
                   isStatement: Outcome<bool>, statement: Outcome<Statement>,
                   entry: Outcome<ReceiptState>, rendered: Entry): Handled
  {
    Gate(r0, req.credentials(false),
         GetAttempt(r0, req, config, tk, sendBody, isStatement, statement, entry, rendered), false)
  }

  /** The reply to a receipt after PUT: 200 with the entry, or 204, both with Location. */
  function PutReply(r0: Reply, config: Config, tk: Toolkit, deposit: Deposit, calls: seq<Call>,
                    s: ReceiptState, rendered: Entry): Attempt
  {
    match s.Location()
    case None => Attempt(r0, Raising(ServerFailure(NoLocationMessage)), Some(deposit), calls, None, Some(s))
    case Some(location) =>
      if config.returnDepositReceipt && !s.empty then
        var s' := Generated(s, config);
        var text := tk.serialize(rendered);
        var r := r0.WithStatus(StatusOK)
                   .WithHeader(ContentTypeHeader, EntryType)
                   .WithHeader(LocationHeader, location)
                   .WithHeader(LastModifiedHeader, LastModified(s'.lastModified, tk))
                   .WithHeader(ContentMD5Header, tk.md5(text))
                   .WithBody(Text(text));
        Attempt(r, Completed, Some(deposit), calls, Some(rendered), Some(s'))
      else
        Attempt(r0.WithStatus(StatusNoContent).WithHeader(LocationHeader, location),
                Completed, Some(deposit), calls, None, Some(s))
  }

  function PutAttempt(r0: Reply, req: Request, config: Config, tk: Toolkit,
                      replaced: Outcome<ReceiptState>, rendered: Entry): Attempt
  {
    match req.inProgress
    case Throws(x) => Attempt(r0, Raising(x), None, [], None, None)
    case Ok(inProgress) =>
      var deposit := NewDeposit.(inProgress := Some(inProgress));
      match RoutePut(req.contentType)
      case PutMultipart =>
        Attempt(r0, Raising(SwordFailure(SwordError(MethodNotAllowed, MultipartMessage))), Some(deposit), [], None, None)
      case PutOther =>
        Attempt(r0, Raising(SwordFailure(SwordError(BadRequest, PutEntryMessage))), Some(deposit), [], None, None)
      case PutEntry =>
        match req.entryProperties
        case Some(x) => Attempt(r0, Raising(x), Some(deposit), [], None, None)
        case None =>
          var deposit := deposit.(fromEntry := true);
          var calls := [ReplaceMetadata(req.url, deposit)];
          match replaced
          case Throws(x) => Attempt(r0, Raising(x), Some(deposit), calls, None, None)
          case Ok(s) => PutReply(r0, config, tk, deposit, calls, s, rendered)
  }

  function PutSpec(r0: Reply, req: Request, config: Config, tk: Toolkit,
                   replaced: Outcome<ReceiptState>, rendered: Entry): Handled
  {
    Gate(r0, req.credentials(false), PutAttempt(r0, req, config, tk, replaced, rendered), true)
  }

  /** The reply to a receipt after POST: no status of its own; Location only when there is one. */
  function PostReply(r0: Reply, config: Config, tk: Toolkit, call: Call, s: ReceiptState, rendered: Entry): Attempt
    requires call.AddMetadata? || call.UseHeaders? || call.AddResources?
  {
    var location := s.Location();
    if config.returnDepositReceipt && !s.empty then
      var s' := Generated(s, config);
      var text := tk.serialize(rendered);
      var r := r0.WithHeader(ContentTypeHeader, EntryType);
      var r := if location.Some? then r.WithHeader(LocationHeader, location.value) else r;
      var r := r.WithHeader(LastModifiedHeader, LastModified(s'.lastModified, tk))
                .WithHeader(ContentMD5Header, tk.md5(text))
                .WithBody(Text(text));
      Attempt(r, Completed, Some(call.deposit), [call], Some(rendered), Some(s'))
    else
      var r := if location.Some? then r0.WithHeader(LocationHeader, location.value) else r0;
      Attempt(r, Completed, Some(call.deposit), [call], None, Some(s))
  }

  function PostAttempt(r0: Reply, req: Request, config: Config, tk: Toolkit,
                       received: Outcome<ReceiptState>, rendered: Entry): Attempt
  {
    match req.inProgress
    case Throws(x) => Attempt(r0, Raising(x), None, [], None, None)
    case Ok(inProgress) =>
      var deposit := NewDeposit.(inProgress := Some(inProgress));
      var read :=
        match RoutePost(req.contentType, req.contentLength)
        case PostEntry => req.entryProperties
        case PostHeaders => None
        case PostBinary => req.binaryProperties;
      if read.Some? then
        Attempt(r0, Raising(read.value), Some(deposit), [], None, None)
      else
        var call :=
          match RoutePost(req.contentType, req.contentLength)
          case PostEntry => AddMetadata(req.url, deposit.(fromEntry := true))
          case PostHeaders => UseHeaders(req.url, deposit)
          case PostBinary => AddResources(req.url, deposit.(fromBinary := true));
        match received
        case Throws(x) => Attempt(r0, Raising(x), Some(call.deposit), [call], None, None)
        case Ok(s) => PostReply(r0, config, tk, call, s, rendered)
  }

  function PostSpec(r0: Reply, req: Request, config: Config, tk: Toolkit,
                    received: Outcome<ReceiptState>, rendered: Entry): Handled
  {
    Gate(r0, req.credentials(false), PostAttempt(r0, req, config, tk, received, rendered), true)
  }

  function DeleteAttempt(r0: Reply, req: Request, deleted: Option<Raised>): Attempt {
    var calls := [DeleteContainer(req.url)];
    match deleted
    case Some(x) => Attempt(r0, Raising(x), None, calls, None, None)
    case None => Attempt(r0.WithStatus(StatusNoContent), Completed, None, calls, None, None)
  }

  function DeleteSpec(r0: Reply, req: Request, deleted: Option<Raised>): Handled {
    Gate(r0, req.credentials(false), DeleteAttempt(r0, req, deleted), false)
  }

  // ---------------------------------------------------------------------------
  // The endpoint

  class ContainerAPI {
    const config: Config

    constructor (config: Config)
      ensures this.config == config
    {
      this.config := config;
    }

    /** addGenerator: the configured generator element joins the receipt's wrapped entry. */
    method AddGenerator(doc: DepositReceipt)
      modifies doc
      ensures doc.State() == Generated(old(doc.State()), config)
    {
      var generator := config.generator;
      if generator.Some? {
        doc.AddToWrappedEntry(generator.value);
      }
    }

    /** The try block of get: content negotiation between the statement and the receipt. */
    method GetTry(req: Request, tk: Toolkit, resp: Response, sendBody: bool,
                  isStatement: Outcome<bool>, statement: Outcome<Statement>, entry: Outcome<DepositReceipt>)
      returns (stop: Stop, calls: seq<Call>, rendered: Option<Entry>)
      modifies resp, ReceiptFrame(entry)
      ensures var a := GetAttempt(old(resp.Value()), req, config, tk, sendBody, isStatement, statement,
                                  old(StateOf(entry)), RenderedOr(rendered));
              && resp.Value() == a.reply && stop == a.stop && calls == a.calls && rendered == a.rendered
              && a.deposit.None?
              && (entry.Ok? ==> entry.value.State() == a.receipt.GetOr(old(entry.value.State())))
      ensures rendered.Some? ==> entry.Ok? && IsRenderingOf(rendered.value, entry.value.State())
    {
      rendered := None;
      var accept := req.accept;
      var iri := req.url;
      calls := [IsStatementRequest(iri, accept)];
      if isStatement.Throws? {
        stop := Raising(isStatement.raised);
        return;
      }
      if isStatement.value {
        calls := calls + [GetStatement(iri, accept)];
        if statement.Throws? {
          stop := Raising(statement.raised);
          return;
        }
        var st := statement.value;
        resp.SetHeader(ContentTypeHeader, st.contentType);
        resp.SetHeader(LastModifiedHeader, LastModified(st.lastModified, tk));
        var text := st.serialized;
        resp.SetHeader(ContentMD5Header, tk.md5(text));
        if sendBody {
          resp.Write(Text(text));
        }
      } else {
        calls := calls + [GetEntry(iri, accept)];
        if entry.Throws? {
          stop := Raising(entry.raised);
          return;
        }
        var receipt := entry.value;
        AddGenerator(receipt);
        var location := receipt.GetLocation();
        resp.SetHeader(ContentTypeHeader, EntryType);
        if location.None? {
          stop := NullPointer;
          return;
        }
        resp.SetHeader(LocationHeader, location.value);
        resp.SetHeader(LastModifiedHeader, LastModified(receipt.lastModified, tk));
        var e := receipt.GetAbderaEntry();
        var text := tk.serialize(e);
        resp.SetHeader(ContentMD5Header, tk.md5(text));
        if sendBody {
          resp.Write(Text(text));
        }
        rendered := Some(e);
      }
      stop := Completed;
    }

    method Get(req: Request, tk: Toolkit, resp: Response, sendBody: bool,
               isStatement: Outcome<bool>, statement: Outcome<Statement>, entry: Outcome<DepositReceipt>)
      returns (t: Trace)
      modifies resp, ReceiptFrame(entry)
      ensures var h := GetSpec(old(resp.Value()), req, config, tk, sendBody, isStatement, statement,
                               old(StateOf(entry)), RenderedOr(t.rendered));
              && resp.Value() == h.reply && t == h.trace
              && (entry.Ok? ==> entry.value.State() == h.receipt.GetOr(old(entry.value.State())))
      ensures t.rendered.Some? ==> entry.Ok? && IsRenderingOf(t.rendered.value, entry.value.State())
    {
      var auth := req.credentials(false);
      if auth.Refused? {
        t := Refuse(resp, auth.retry, auth.message);
        return;
      }
      var stop, calls, rendered := GetTry(req, tk, resp, sendBody, isStatement, statement, entry);
      t := Conclude(resp, stop, None, calls, rendered, false);
    }

    /** head is get without the body. */
    method Head(req: Request, tk: Toolkit, resp: Response,
                isStatement: Outcome<bool>, statement: Outcome<Statement>, entry: Outcome<DepositReceipt>)
      returns (t: Trace)
      modifies resp, ReceiptFrame(entry)
      ensures var h := GetSpec(old(resp.Value()), req, config, tk, false, isStatement, statement,
                               old(StateOf(entry)), RenderedOr(t.rendered));
              && resp.Value() == h.reply && t == h.trace
              && (entry.Ok? ==> entry.value.State() == h.receipt.GetOr(old(entry.value.State())))
      ensures t.rendered.Some? ==> entry.Ok? && IsRenderingOf(t.rendered.value, entry.value.State())
    {
      t := Get(req, tk, resp, false, isStatement, statement, entry);
    }

    /** The try block of put once the deposit exists and the route is an Atom entry. */
    method PutTry(req: Request, tk: Toolkit, resp: Response, replaced: Outcome<DepositReceipt>)
      returns (stop: Stop, deposit: Option<Deposit>, calls: seq<Call>, rendered: Option<Entry>)
      modifies resp, ReceiptFrame(replaced)
      ensures var a := PutAttempt(old(resp.Value()), req, config, tk, old(StateOf(replaced)), RenderedOr(rendered));
              && resp.Value() == a.reply && stop == a.stop && deposit == a.deposit
              && calls == a.calls && rendered == a.rendered
              && (replaced.Ok? ==> replaced.value.State() == a.receipt.GetOr(old(replaced.value.State())))
      ensures rendered.Some? ==> replaced.Ok? && IsRenderingOf(rendered.value, replaced.value.State())
    {
      deposit, calls, rendered := None, [], None;
      var contentType := req.contentType;
      var isMultipart := StartsWith(contentType, MultipartPrefix);
      var isEntryOnly := StartsWith(contentType, AtomPrefix);
      if req.inProgress.Throws? {
        stop := Raising(req.inProgress.raised);
        return;
      }
      var d := NewDeposit.(inProgress := Some(req.inProgress.value));
      deposit := Some(d);
      var iri := req.url;
      if isMultipart {
        stop := Raising(SwordFailure(SwordError(MethodNotAllowed, MultipartMessage)));
        return;
      } else if isEntryOnly {
        // The type check that follows inside this branch cannot fail.
        assert EntryTypeAccepted(contentType);
        if req.entryProperties.Some? {
          stop := Raising(req.entryProperties.value);
          return;
        }
        d := d.(fromEntry := true);
        deposit := Some(d);
        calls := [ReplaceMetadata(iri, d)];
        if replaced.Throws? {
          stop := Raising(replaced.raised);
          return;
        }
      } else {
        stop := Raising(SwordFailure(SwordError(BadRequest, PutEntryMessage)));
        return;
      }
      var receipt := replaced.value;
      var location := receipt.GetLocation();
      if location.None? {
        stop := Raising(ServerFailure(NoLocationMessage));
        return;
      }
      if config.returnDepositReceipt && !receipt.empty {
        AddGenerator(receipt);
        resp.SetStatus(StatusOK);
        resp.SetHeader(ContentTypeHeader, EntryType);
        resp.SetHeader(LocationHeader, location.value);
        resp.SetHeader(LastModifiedHeader, LastModified(receipt.lastModified, tk));
        var e := receipt.GetAbderaEntry();
        var text := tk.serialize(e);
        resp.SetHeader(ContentMD5Header, tk.md5(text));
        resp.Write(Text(text));
        rendered := Some(e);
      } else {
        resp.SetStatus(StatusNoContent);
        resp.SetHeader(LocationHeader, location.value);
      }
      stop := Completed;
    }

    method Put(req: Request, tk: Toolkit, resp: Response, replaced: Outcome<DepositReceipt>)
      returns (t: Trace)
      modifies resp, ReceiptFrame(replaced)
      ensures var h := PutSpec(old(resp.Value()), req, config, tk, old(StateOf(replaced)), RenderedOr(t.rendered));
              && resp.Value() == h.reply && t == h.trace
              && (replaced.Ok? ==> replaced.value.State() == h.receipt.GetOr(old(replaced.value.State())))
      ensures t.rendered.Some? ==> replaced.Ok? && IsRenderingOf(t.rendered.value, replaced.value.State())
    {
      var auth := req.credentials(false);
      if auth.Refused? {
        t := Refuse(resp, auth.retry, auth.message);
        return;
      }
      var stop, deposit, calls, rendered := PutTry(req, tk, resp, replaced);
      t := Conclude(resp, stop, deposit, calls, rendered, true);
    }

    method PostTry(req: Request, tk: Toolkit, resp: Response, received: Outcome<DepositReceipt>)
      returns (stop: Stop, deposit: Option<Deposit>, calls: seq<Call>, rendered: Option<Entry>)
      modifies resp, ReceiptFrame(received)
      ensures var a := PostAttempt(old(resp.Value()), req, config, tk, old(StateOf(received)), RenderedOr(rendered));
              && resp.Value() == a.reply && stop == a.stop && deposit == a.deposit
              && calls == a.calls && rendered == a.rendered
              && (received.Ok? ==> received.value.State() == a.receipt.GetOr(old(received.value.State())))
      ensures rendered.Some? ==> received.Ok? && IsRenderingOf(rendered.value, received.value.State())
    {
      deposit, calls, rendered := None, [], None;
      var contentType := req.contentType;
      var isEntryOnly := StartsWith(contentType, AtomPrefix);
      var headersOnly := req.contentLength == 0;
      if req.inProgress.Throws? {
        stop := Raising(req.inProgress.raised);
        return;
      }
      var iri := req.url;
      var d := NewDeposit.(inProgress := Some(req.inProgress.value));
      deposit := Some(d);
      var call;
      if isEntryOnly {
        if req.entryProperties.Some? {
          stop := Raising(req.entryProperties.value);
          return;
        }
        d := d.(fromEntry := true);
        call := AddMetadata(iri, d);
      } else if headersOnly {
        call := UseHeaders(iri, d);
      } else {
        if req.binaryProperties.Some? {
          stop := Raising(req.binaryProperties.value);
          return;
        }
        d := d.(fromBinary := true);
        call := AddResources(iri, d);
      }
      deposit := Some(d);
      calls := [call];
      if received.Throws? {
        stop := Raising(received.raised);
        return;
      }
      rendered := PostAnswer(tk, resp, call, received.value);
      stop := Completed;
    }

    /** The part of post's try block that answers with the manager's receipt. */
    method PostAnswer(tk: Toolkit, resp: Response, call: Call, receipt: DepositReceipt) returns (rendered: Option<Entry>)
      requires call.AddMetadata? || call.UseHeaders? || call.AddResources?
      modifies resp, receipt
      ensures var a := PostReply(old(resp.Value()), config, tk, call, old(receipt.State()), RenderedOr(rendered));
              && resp.Value() == a.reply && rendered == a.rendered
              && receipt.State() == a.receipt.GetOr(old(receipt.State()))
      ensures rendered.Some? ==> IsRenderingOf(rendered.value, receipt.State())
    {
      rendered := None;
      var location := receipt.GetLocation();
      if config.returnDepositReceipt && !receipt.empty {
        AddGenerator(receipt);
        resp.SetHeader(ContentTypeHeader, EntryType);
        if location.Some? {
          resp.SetHeader(LocationHeader, location.value);
        }
        resp.SetHeader(LastModifiedHeader, LastModified(receipt.lastModified, tk));
        var e := receipt.GetAbderaEntry();
        var text := tk.serialize(e);
        resp.SetHeader(ContentMD5Header, tk.md5(text));
        resp.Write(Text(text));
        rendered := Some(e);
      } else {
        if location.Some? {
          resp.SetHeader(LocationHeader, location.value);
        }
      }
    }

    method Post(req: Request, tk: Toolkit, resp: Response, received: Outcome<DepositReceipt>)
      returns (t: Trace)
      modifies resp, ReceiptFrame(received)
      ensures var h := PostSpec(old(resp.Value()), req, config, tk, old(StateOf(received)), RenderedOr(t.rendered));
              && resp.Value() == h.reply && t == h.trace
              && (received.Ok? ==> received.value.State() == h.receipt.GetOr(old(received.value.State())))
      ensures t.rendered.Some? ==> received.Ok? && IsRenderingOf(t.rendered.value, received.value.State())
    {
      var auth := req.credentials(false);
      if auth.Refused? {
        t := Refuse(resp, auth.retry, auth.message);
        return;
      }
      var stop, deposit, calls, rendered := PostTry(req, tk, resp, received);
      t := Conclude(resp, stop, deposit, calls, rendered, true);
    }

    method Delete(req: Request, resp: Response, deleted: Option<Raised>) returns (t: Trace)
      modifies resp
      ensures var h := DeleteSpec(old(resp.Value()), req, deleted);
              resp.Value() == h.reply && t == h.trace
    {
      var auth := req.credentials(false);
      if auth.Refused? {
        t := Refuse(resp, auth.retry, auth.message);
        return;
      }
      var uri := req.url;
      var stop := Completed;
      if deleted.Some? {
        stop := Raising(deleted.value);
      } else {
        resp.SetStatus(StatusNoContent);
      }
      t := Conclude(resp, stop, None, [DeleteContainer(uri)], None, false);
    }
  }
}
