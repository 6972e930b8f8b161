/**
 * What the container endpoint promises, stated over its specification
 * functions: the reply to GET and HEAD, the routing of PUT and POST bodies,
 * the deposit each manager call receives, and the replies to PUT, POST and
 * DELETE.
 */
module ContainerProperties {
  import opened Wrappers
  import opened Atom
  import opened Receipts
  import opened Sword
  import opened Servlet
  import opened Endpoint
  import opened Container

  /** head answers exactly as get, except that nothing is written to the body. */
  lemma HeadIsGetWithoutBody(r0: Reply, req: Request, config: Config, tk: Toolkit,
                             isStatement: Outcome<bool>, statement: Outcome<Statement>,
                             entry: Outcome<ReceiptState>, rendered: Entry)
    ensures var g := GetSpec(r0, req, config, tk, true, isStatement, statement, entry, rendered);
            var h := GetSpec(r0, req, config, tk, false, isStatement, statement, entry, rendered);
            && h.trace == g.trace && h.receipt == g.receipt
            && h.reply.body == r0.body && h.reply == g.reply.(body := r0.body)
            && |r0.body| <= |g.reply.body| <= |r0.body| + 1 && g.reply.body[..|r0.body|] == r0.body
  {
  }

  /**
   * When get completes and sends a body, exactly one piece of text is
   * written, and the Content-MD5 header is the checksum of that text.
   */
  lemma GetChecksumMatchesBody(r0: Reply, req: Request, config: Config, tk: Toolkit,
                               isStatement: Outcome<bool>, statement: Outcome<Statement>,
                               entry: Outcome<ReceiptState>, rendered: Entry)
    requires req.credentials(false) == Authenticated
    requires var g := GetSpec(r0, req, config, tk, true, isStatement, statement, entry, rendered);
             g.trace.exit == Returned && g.trace.caught.None?
    ensures var g := GetSpec(r0, req, config, tk, true, isStatement, statement, entry, rendered);
            && |g.reply.body| == |r0.body| + 1 && g.reply.body[..|r0.body|] == r0.body
            && g.reply.body[|r0.body|].Text?
            && ContentMD5Header in g.reply.headers
            && g.reply.headers[ContentMD5Header] == tk.md5(g.reply.body[|r0.body|].text)
  {
  }

  /**
   * A request the container manager judges to be for the statement is
   * answered with the statement: its media type, its date (or now), its
   * checksum, and no Location header of its own.
   */
  lemma GetStatementReply(r0: Reply, req: Request, config: Config, tk: Toolkit, sendBody: bool,
                          st: Statement, entry: Outcome<ReceiptState>, rendered: Entry)
    requires req.credentials(false) == Authenticated
    ensures var h := GetSpec(r0, req, config, tk, sendBody, Ok(true), Ok(st), entry, rendered);
            && h.trace.calls == [IsStatementRequest(req.url, req.accept), GetStatement(req.url, req.accept)]
            && h.trace.exit == Returned && h.trace.caught.None? && h.trace.rendered.None? && h.receipt.None?
            && h.reply.status == r0.status && h.reply.sent == r0.sent
            && h.reply.headers[ContentTypeHeader] == st.contentType
            && h.reply.headers[LastModifiedHeader] == tk.httpDate(if st.lastModified.Some? then st.lastModified.value else tk.now)
            && h.reply.headers[ContentMD5Header] == tk.md5(st.serialized)
            && (LocationHeader in h.reply.headers <==> LocationHeader in r0.headers)
            && h.reply.body == (if sendBody then r0.body + [Text(st.serialized)] else r0.body)
  {
  }

  /**
   * Otherwise the deposit receipt is answered, after addGenerator: the entry
   * media type, the receipt's Location, its date (or now) and the rendered
   * entry; the receipt is left with the generator added.
   */
  lemma GetEntryReply(r0: Reply, req: Request, config: Config, tk: Toolkit, sendBody: bool,
                      statement: Outcome<Statement>, s: ReceiptState, rendered: Entry)
    requires req.credentials(false) == Authenticated
    requires s.Location().Some?
    ensures var h := GetSpec(r0, req, config, tk, sendBody, Ok(false), statement, Ok(s), rendered);
            && h.trace.calls == [IsStatementRequest(req.url, req.accept), GetEntry(req.url, req.accept)]
            && h.trace.exit == Returned && h.trace.caught.None?
            && h.trace.rendered == Some(rendered) && h.receipt == Some(Generated(s, config))
            && h.reply.status == r0.status && h.reply.sent == r0.sent
            && h.reply.headers[ContentTypeHeader] == EntryType
            && h.reply.headers[LocationHeader] == s.Location().value
            && h.reply.headers[LastModifiedHeader] == tk.httpDate(if s.lastModified.Some? then s.lastModified.value else tk.now)
            && h.reply.headers[ContentMD5Header] == tk.md5(tk.serialize(rendered))
            && h.reply.body == (if sendBody then r0.body + [Text(tk.serialize(rendered))] else r0.body)
  {
    var g := Generated(s, config);
    assert g.Location() == s.Location() && g.lastModified == s.lastModified by {
      if config.generator.Some? {
        assert g == s.WithWrappedElement(config.generator.value);
        assert g.(entry := s.entry) == s;
      }
    }
  }

  /**
   * A receipt with neither a Location nor an Edit-IRI is dereferenced
   * unchecked by get: the Content-Type is set, then a NullPointerException
   * leaves the handler uncaught.
   */
  lemma GetNullLocation(r0: Reply, req: Request, config: Config, tk: Toolkit, sendBody: bool,
                        statement: Outcome<Statement>, s: ReceiptState, rendered: Entry)
    requires req.credentials(false) == Authenticated
    requires s.location.None? && s.editIRI.None?
    ensures var h := GetSpec(r0, req, config, tk, sendBody, Ok(false), statement, Ok(s), rendered);
            && h.trace.exit == NullDereference && h.trace.caught.None? && h.trace.rendered.None?
            && h.reply == r0.WithHeader(ContentTypeHeader, EntryType)
  {
    var g := Generated(s, config);
    assert g.location == s.location && g.editIRI == s.editIRI by {
      if config.generator.Some? {
        assert g.(entry := s.entry) == s;
      }
    }
  }

  /** The second content-type test in the Atom branch of put accepts every type that reaches it. */
  lemma EntryTypeCheckNeverFails(contentType: string)
    requires RoutePut(contentType) == PutEntry
    ensures EntryTypeAccepted(contentType)
  {
  }

  /** A failing In-Progress header ends put and post before any deposit exists. */
  lemma InProgressReadFirst(r0: Reply, req: Request, config: Config, tk: Toolkit,
                            received: Outcome<ReceiptState>, rendered: Entry)
    requires req.credentials(false) == Authenticated
    requires req.inProgress.Throws?
    ensures var h := PutSpec(r0, req, config, tk, received, rendered);
            && h.trace.calls == [] && h.trace.deposit.None? && h.trace.caught == Some(req.inProgress.raised)
    ensures var h := PostSpec(r0, req, config, tk, received, rendered);
            && h.trace.calls == [] && h.trace.deposit.None? && h.trace.caught == Some(req.inProgress.raised)
  {
  }

  /**
   * put accepts only an Atom entry: a multipart body is refused as Method
   * Not Allowed, any other body as Bad Request, and only an entry whose
   * properties were read reaches replaceMetadata, with a deposit that
   * carries the In-Progress value and came from an entry.
   */
  lemma PutRouting(r0: Reply, req: Request, config: Config, tk: Toolkit,
                   replaced: Outcome<ReceiptState>, rendered: Entry)
    requires req.credentials(false) == Authenticated
    requires req.inProgress.Ok?
    ensures var h := PutSpec(r0, req, config, tk, replaced, rendered);
            && h.trace.deposit.Some? && h.trace.deposit.value.inProgress == Some(req.inProgress.value)
            && (RoutePut(req.contentType) == PutMultipart ==>
                  var e := SwordError(MethodNotAllowed, MultipartMessage);
                  h.trace.calls == [] && h.trace.caught == Some(SwordFailure(e))
                  && h.reply.sent == Some(ErrorDocument(e)) && h.trace.cleanups == 2)
            && (RoutePut(req.contentType) == PutOther ==>
                  var e := SwordError(BadRequest, PutEntryMessage);
                  h.trace.calls == [] && h.trace.caught == Some(SwordFailure(e))
                  && h.reply.sent == Some(ErrorDocument(e)) && h.trace.cleanups == 2)
            && (h.trace.calls != [] <==> RoutePut(req.contentType) == PutEntry && req.entryProperties.None?)
            && (h.trace.calls != [] ==>
                  h.trace.calls == [ReplaceMetadata(req.url, Deposit(Some(req.inProgress.value), None, true, false))])
  {
  }

  /**
   * The reply to a replaced entry: no Location is a server fault; otherwise
   * 200 with the rendered receipt when the configuration asks for receipts
   * and the receipt is not empty, else 204; both carry the Location.
   */
  lemma PutReplyCases(r0: Reply, req: Request, config: Config, tk: Toolkit, s: ReceiptState, rendered: Entry)
    requires req.credentials(false) == Authenticated
    requires req.inProgress.Ok? && RoutePut(req.contentType) == PutEntry && req.entryProperties.None?
    ensures var h := PutSpec(r0, req, config, tk, Ok(s), rendered);
            && (s.Location().None? ==>
                  h.reply == r0 && h.trace.exit == ServletFault(NoLocationMessage) && h.trace.cleanups == 1)
            && (s.Location().Some? ==>
                  h.trace.exit == Returned && h.trace.caught.None? && h.trace.cleanups == 1
                  && h.reply.sent == r0.sent && h.reply.headers[LocationHeader] == s.Location().value)
            && (s.Location().Some? && config.returnDepositReceipt && !s.empty ==>
                  h.reply.status == StatusOK && h.reply.headers[ContentTypeHeader] == EntryType
                  && h.reply.body == r0.body + [Text(tk.serialize(rendered))]
                  && h.reply.headers[ContentMD5Header] == tk.md5(tk.serialize(rendered))
                  && h.trace.rendered == Some(rendered) && h.receipt == Some(Generated(s, config)))
            && (s.Location().Some? && !(config.returnDepositReceipt && !s.empty) ==>
                  h.reply.status == StatusNoContent && h.reply.body == r0.body
                  && h.reply.headers == r0.headers[LocationHeader := s.Location().value]
                  && h.trace.rendered.None? && h.receipt == Some(s))
  {
  }

  /**
   * post routes by body: an Atom entry goes to addMetadata, an empty body to
   * useHeaders, anything else (a multipart body included) to addResources;
   * the manager is called unless the chosen body reader fails.
   */
  lemma PostRouting(r0: Reply, req: Request, config: Config, tk: Toolkit,
                    received: Outcome<ReceiptState>, rendered: Entry)
    requires req.credentials(false) == Authenticated
    requires req.inProgress.Ok?
    ensures var h := PostSpec(r0, req, config, tk, received, rendered);
            var b := Some(req.inProgress.value);
            var atom := StartsWith(req.contentType, AtomPrefix);
            && (h.trace.calls != [] <==>
                  (atom ==> req.entryProperties.None?) && (!atom && req.contentLength != 0 ==> req.binaryProperties.None?))
            && (h.trace.calls != [] && atom ==>
                  h.trace.calls == [AddMetadata(req.url, Deposit(b, None, true, false))])
            && (h.trace.calls != [] && !atom && req.contentLength == 0 ==>
                  h.trace.calls == [UseHeaders(req.url, Deposit(b, None, false, false))])
            && (h.trace.calls != [] && !atom && req.contentLength != 0 ==>
                  h.trace.calls == [AddResources(req.url, Deposit(b, None, false, true))])
  {
  }

  /** Unlike put, post does not refuse a multipart body: it is passed on as binary content. */
  lemma PostAcceptsMultipart(r0: Reply, req: Request, config: Config, tk: Toolkit,
                             received: Outcome<ReceiptState>, rendered: Entry)
    requires req.credentials(false) == Authenticated
    requires req.inProgress.Ok? && req.binaryProperties.None?
    requires StartsWith(req.contentType, MultipartPrefix) && req.contentLength != 0
    ensures PostSpec(r0, req, config, tk, received, rendered).trace.calls
            == [AddResources(req.url, Deposit(Some(req.inProgress.value), None, false, true))]
  {
    assert req.contentType[0] == MultipartPrefix[0];
  }

  /**
   * The reply to post: the status is never set, a Location header is sent
   * exactly when the receipt has one, and the rendered receipt with its
   * checksum is sent when the configuration asks for receipts and the
   * receipt is not empty.
   */
  lemma PostReplyCases(r0: Reply, req: Request, config: Config, tk: Toolkit, s: ReceiptState, rendered: Entry)
    requires req.credentials(false) == Authenticated
    requires req.inProgress.Ok?
    requires StartsWith(req.contentType, AtomPrefix) ==> req.entryProperties.None?
    requires !StartsWith(req.contentType, AtomPrefix) && req.contentLength != 0 ==> req.binaryProperties.None?
    ensures var h := PostSpec(r0, req, config, tk, Ok(s), rendered);
            && h.reply.status == r0.status && h.reply.sent == r0.sent
            && h.trace.exit == Returned && h.trace.caught.None? && h.trace.cleanups == 1
            && (s.Location().Some? ==> h.reply.headers[LocationHeader] == s.Location().value)
            && (s.Location().None? ==>
                  (LocationHeader in h.reply.headers <==> LocationHeader in r0.headers)
                  && (LocationHeader in r0.headers ==> h.reply.headers[LocationHeader] == r0.headers[LocationHeader]))
            && (config.returnDepositReceipt && !s.empty ==>
                  h.reply.headers[ContentTypeHeader] == EntryType
                  && h.reply.body == r0.body + [Text(tk.serialize(rendered))]
                  && h.reply.headers[ContentMD5Header] == tk.md5(tk.serialize(rendered))
                  && h.trace.rendered == Some(rendered) && h.receipt == Some(Generated(s, config)))
            && (!(config.returnDepositReceipt && !s.empty) ==>
                  h.reply.body == r0.body && h.trace.rendered.None? && h.receipt == Some(s))
  {
  }

  /** delete answers 204 with nothing else once the manager has deleted the container. */
  lemma DeleteReply(r0: Reply, req: Request, deleted: Option<Raised>)
    requires req.credentials(false) == Authenticated
    ensures var h := DeleteSpec(r0, req, deleted);
            && h.trace.calls == [DeleteContainer(req.url)] && h.trace.cleanups == 0 && h.trace.deposit.None?
            && h.trace.caught == deleted
            && (deleted.None? ==> h.reply == r0.WithStatus(StatusNoContent) && h.trace.exit == Returned)
  {
  }
}
