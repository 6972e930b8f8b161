/**
 * What the media-resource endpoint promises, stated over its specification
 * functions: the headers and content of GET, the routing and replies of PUT
 * and POST, and DELETE.
 */
module MediaProperties {
  import opened Wrappers
  import opened Atom
  import opened Receipts
  import opened Sword
  import opened Servlet
  import opened Endpoint
  import opened Media

  /**
   * Only get honours the configured allowance for unauthenticated access: it
   * reaches the manager exactly when the credentials are accepted under that
   * allowance.
   */
  lemma GetHonoursMediaAccess(r0: Reply, req: Request, config: Config, tk: Toolkit, sendBody: bool,
                              resource: Outcome<MediaResource>)
    ensures GetSpec(r0, req, config, tk, sendBody, resource).trace.calls != []
            <==> req.credentials(config.allowUnauthenticatedMediaAccess) == Authenticated
  {
  }

  /** put, post and delete always insist on credentials. */
  lemma ChangesRequireCredentials(r0: Reply, req: Request, config: Config, tk: Toolkit,
                                  receipt: Outcome<ReceiptState>, rendered: Entry, deleted: Option<Raised>)
    ensures PutSpec(r0, req, receipt).trace.deposit.Some? <==> req.credentials(false) == Authenticated
    ensures PostSpec(r0, req, config, tk, receipt, rendered).trace.deposit.Some? <==> req.credentials(false) == Authenticated
    ensures DeleteSpec(r0, req, deleted).trace.calls != [] <==> req.credentials(false) == Authenticated
  {
    if req.credentials(false) == Authenticated {
      assert PutAttempt(r0, req, receipt).deposit.Some?;
      assert PostAttempt(r0, req, config, tk, receipt, rendered).deposit.Some?;
    }
  }

  /**
   * get announces the representation: a Packaging header only for a packaged
   * resource, never an empty packaging or content type, the manager's
   * checksum as given, and the content's bytes when a body is sent.
   */
  lemma GetReply(r0: Reply, req: Request, config: Config, tk: Toolkit, sendBody: bool, m: MediaResource)
    requires req.credentials(config.allowUnauthenticatedMediaAccess) == Authenticated
    ensures var h := GetSpec(r0, req, config, tk, sendBody, Ok(m));
            && h.trace.calls == [GetMediaResourceRepresentation(req.url, req.accept)]
            && h.trace.exit == Returned && h.trace.caught.None? && h.trace.cleanups == 0
            && h.reply.status == r0.status && h.reply.sent == r0.sent
            && (PackagingHeader in h.reply.headers <==> !m.unpackaged || PackagingHeader in r0.headers)
            && (!m.unpackaged ==> h.reply.headers[PackagingHeader] != ""
                                  && (m.packaging.Some? && m.packaging.value != "" ==> h.reply.headers[PackagingHeader] == m.packaging.value))
            && (m.unpackaged && PackagingHeader in r0.headers ==> h.reply.headers[PackagingHeader] == r0.headers[PackagingHeader])
            && h.reply.headers[ContentTypeHeader] != ""
            && (m.contentType.Some? && m.contentType.value != "" ==> h.reply.headers[ContentTypeHeader] == m.contentType.value)
            && h.reply.headers[LastModifiedHeader] == tk.httpDate(if m.lastModified.Some? then m.lastModified.value else tk.now)
            && h.reply.headers[ContentMD5Header] == m.contentMD5
            && h.reply.body == (if sendBody then r0.body + [Bytes(m.content)] else r0.body)
  {
  }

  /** head answers exactly as get, except that nothing is written to the body. */
  lemma HeadIsGetWithoutBody(r0: Reply, req: Request, config: Config, tk: Toolkit, resource: Outcome<MediaResource>)
    ensures var g := GetSpec(r0, req, config, tk, true, resource);
            var h := GetSpec(r0, req, config, tk, false, resource);
            && h.trace == g.trace && h.reply.body == r0.body && h.reply == g.reply.(body := r0.body)
  {
  }

  /**
   * put does not look at the content type: any body, a multipart one
   * included, is handed to the manager as binary content.
   */
  lemma PutIgnoresContentType(r0: Reply, req: Request, replaced: Outcome<ReceiptState>, contentType: string)
    ensures PutSpec(r0, req.(contentType := contentType), replaced) == PutSpec(r0, req, replaced)
  {
    var req' := req.(contentType := contentType);
    assert req'.credentials == req.credentials;
    assert PutAttempt(r0, req', replaced) == PutAttempt(r0, req, replaced);
  }

  /**
   * The reply to put: the manager receives a deposit read from the binary
   * body; with a Location the reply is 204 and that Location, and a receipt
   * without one is dereferenced unchecked.
   */
  lemma PutReplyCases(r0: Reply, req: Request, s: ReceiptState)
    requires req.credentials(false) == Authenticated && req.binaryProperties.None?
    ensures var h := PutSpec(r0, req, Ok(s));
            && h.trace.calls == [ReplaceMediaResource(req.url, Deposit(None, None, false, true))]
            && h.trace.cleanups == 1 && h.trace.caught.None?
            && (s.Location().None? ==> h.reply == r0 && h.trace.exit == NullDereference)
            && (s.Location().Some? ==>
                  h.reply == r0.(status := StatusNoContent, headers := r0.headers[LocationHeader := s.Location().value])
                  && h.trace.exit == Returned)
  {
  }

  /**
   * post refuses a multipart body as Method Not Allowed before reading the
   * body: the deposit is still blank, no manager is called, and cleanup runs
   * in the catch block and again in the finally block.
   */
  lemma PostRejectsMultipart(r0: Reply, req: Request, config: Config, tk: Toolkit,
                             received: Outcome<ReceiptState>, rendered: Entry)
    requires req.credentials(false) == Authenticated
    requires StartsWith(req.contentType, MultipartPrefix)
    ensures var h := PostSpec(r0, req, config, tk, received, rendered);
            var e := SwordError(MethodNotAllowed, MultipartMessage);
            && h.trace.calls == [] && h.trace.deposit == Some(NewDeposit)
            && h.trace.caught == Some(SwordFailure(e)) && h.reply.sent == Some(ErrorDocument(e))
            && h.trace.cleanups == 2
  {
  }

  /**
   * Any other body reaches addResource with a deposit read from the binary
   * body and carrying the Metadata-Relevant value, unless one of those reads
   * fails.
   */
  lemma PostRouting(r0: Reply, req: Request, config: Config, tk: Toolkit,
                    received: Outcome<ReceiptState>, rendered: Entry)
    requires req.credentials(false) == Authenticated
    requires !StartsWith(req.contentType, MultipartPrefix)
    ensures var h := PostSpec(r0, req, config, tk, received, rendered);
            && (h.trace.calls != [] <==> req.binaryProperties.None? && req.metadataRelevant.Ok?)
            && (h.trace.calls != [] ==>
                  h.trace.calls == [AddResource(req.url, Deposit(None, Some(req.metadataRelevant.value), false, true))])
  {
  }

  /**
   * The reply to post: a receipt without a Location is a server fault;
   * otherwise 201 with the Location, and the rendered receipt (without
   * Last-Modified or Content-MD5) when the configuration asks for receipts
   * and the receipt is not empty.
   */
  lemma PostReplyCases(r0: Reply, req: Request, config: Config, tk: Toolkit, s: ReceiptState, rendered: Entry)
    requires req.credentials(false) == Authenticated
    requires !StartsWith(req.contentType, MultipartPrefix) && req.binaryProperties.None? && req.metadataRelevant.Ok?
    ensures var h := PostSpec(r0, req, config, tk, Ok(s), rendered);
            && h.trace.cleanups == 1
            && (s.Location().None? ==> h.reply == r0 && h.trace.exit == ServletFault(NoEditIRIMessage))
            && (s.Location().Some? ==>
                  h.reply.status == StatusCreated && h.reply.sent == r0.sent
                  && h.trace.exit == Returned && h.trace.caught.None?)
            && (s.Location().Some? && config.returnDepositReceipt && !s.empty ==>
                  h.reply.headers == r0.headers[ContentTypeHeader := EntryType][LocationHeader := s.Location().value]
                  && h.reply.body == r0.body + [Text(tk.serialize(rendered))]
                  && h.trace.rendered == Some(rendered) && h.receipt == Some(Generated(s, config)))
            && (s.Location().Some? && !(config.returnDepositReceipt && !s.empty) ==>
                  h.reply.headers == r0.headers[LocationHeader := s.Location().value]
                  && h.reply.body == r0.body && h.trace.rendered.None? && h.receipt == Some(s))
  {
  }

  /** delete answers 204 with nothing else once the manager has deleted the content. */
  lemma DeleteReply(r0: Reply, req: Request, deleted: Option<Raised>)
    requires req.credentials(false) == Authenticated
    ensures var h := DeleteSpec(r0, req, deleted);
            && h.trace.calls == [DeleteMediaResource(req.url)] && h.trace.cleanups == 0 && h.trace.deposit.None?
            && h.trace.caught == deleted
            && (deleted.None? ==> h.reply == r0.WithStatus(StatusNoContent) && h.trace.exit == Returned)
  {
  }
}
