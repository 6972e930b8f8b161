# SWORD v2 server core in Dafny

This project models the protocol core of a SWORD v2 deposit server: the
deposit receipt and how it is rendered as an Atom entry, and the two
endpoints that answer requests on a deposit. The container endpoint serves
the Edit-IRI. The media-resource endpoint serves the EM-IRI.

- `wrappers.dfy`: the `Option` type.
- `atom.dfy`: an abstract Atom entry. An entry has an identity, a content
  element and a sequence of child elements (links and simple extensions).
- `receipts.dfy`: the deposit receipt.
  - `ReceiptState` is the receipt as a value.
  - `DepositReceipt` is the class whose setters update it in place. Each
    setter states its new `State()` in terms of the old one.
  - `GetAbderaEntry` renders the receipt. It is proved to produce a
    rendering in the sense of `IsRenderingOf`.
- `receipt_lemmas.dfy`: what a rendering contains.
  - Each added element belongs to one of eleven sections (`Rank`, `Group`).
  - Section by section, the sections hold exactly what the receipt's fields
    say, in the fixed order.
  - The edit and sword-edit setters mirror each other.
  - Two renderings of one receipt differ at most in the order of the
    statement links and of the derived-resource links. Those come from hash
    maps.
- `sword.dfy`: what the endpoints receive from outside the core.
  - The errors a manager may raise, and the request as the endpoint
    superclass reads it.
  - The configuration, and the foreign helpers (serialisation, MD5, date
    formatting).
  - A `Trace` of what a handler did besides answering: manager calls, the
    deposit, cleanups, and how the handler exited.
- `servlet.dfy`: the HTTP response.
  - `Reply` is the response as a value: status, headers, body writes, and a
    sent error.
  - `Response` is the object the handlers update.
- `endpoint.dfy`: what every handler shares.
  - The authentication gate (`Gate`, `Refusal`).
  - The catch and finally blocks (`Settle`), and the Last-Modified value.
  - addGenerator's effect on a receipt (`Generated`).
- `container_api.dfy`, `media_resource_api.dfy`: the handlers.
  - Each HTTP handler is a method on the endpoint object. It updates the
    `Response` in the order the servlet does.
  - Its postcondition equates the final response, the trace and the
    receipt's final state with a specification function: `GetSpec`,
    `PutSpec`, `PostSpec` or `DeleteSpec`.
  - The managers' answers are parameters. Each is an `Outcome` (a value or
    the exception thrown); a receipt is the `DepositReceipt` object the
    manager returned.
- `container_lemmas.dfy`, `media_lemmas.dfy`: the properties of those
  specification functions. They cover:
  - routing by content type;
  - the deposit each manager receives;
  - the status and headers of each reply;
  - HEAD against GET;
  - the error paths.

The model follows the code, including these behaviours:

- When a SwordError or SwordAuthException is caught in PUT or POST, cleanup
  runs in the catch block and again in the finally block
  (`Endpoint.CleanupOnEveryPath`).
- Container POST sets no status of its own: the response keeps the status it
  already had (`ContainerProperties.PostReplyCases`).
- Only container PUT and media POST refuse multipart bodies:
  - container POST hands them to addResources as binary content
    (`ContainerProperties.PostAcceptsMultipart`);
  - media PUT reads no content type.
- Container GET and media PUT dereference a receipt's location without a
  null check. Container PUT and both POSTs do check it. A receipt with
  neither a Location nor an Edit-IRI therefore ends those two handlers with
  an uncaught NullPointerException (`Exit.NullDereference`).
- The second content-type test in container PUT's Atom branch
  (ContainerAPI.java line 169) can never fail. The method asserts this at
  that point (`ContainerProperties.EntryTypeCheckNeverFails`).

## Model

| member | source | states |
|---|---|---|
| Receipts.ReceiptState.Location | src/main/java/org/swordapp/server/DepositReceipt.java:142-144 | the explicit location when set, otherwise the edit IRI; defined exactly when one of the two is; DepositReceipt.GetLocation delegates to it |
| Receipts.ReceiptState.WithEditIRI | src/main/java/org/swordapp/server/DepositReceipt.java:133-140 | the edit IRI becomes the argument; the SE-IRI takes it only while unset; no other field changes |
| Receipts.ReceiptState.WithSwordEditIRI | src/main/java/org/swordapp/server/DepositReceipt.java:158-165 | the SE-IRI becomes the argument; the edit IRI takes it only while unset; no other field changes |
| Receipts.ReceiptState.WithPackaging | src/main/java/org/swordapp/server/DepositReceipt.java:192-194 | the format is appended at the end, the earlier formats kept in order; nothing else changes |
| Receipts.ReceiptState.WithStatement | src/main/java/org/swordapp/server/DepositReceipt.java:204-206 | statements are keyed by URI: the URI maps to the new type, which may be absent (null), other URIs keep theirs, nothing else changes |
| Receipts.ReceiptState.WithDerivedResource | src/main/java/org/swordapp/server/DepositReceipt.java:237-239 | derived resources are keyed by URI: the URI maps to the new (possibly absent) type, others unchanged |
| Receipts.ReceiptState.WithWrappedElement | src/main/java/org/swordapp/server/DepositReceipt.java:208-214 | the element is appended to the wrapped entry's children; identity, content and all other fields unchanged |
| Receipts.PackagingElements | src/main/java/org/swordapp/server/DepositReceipt.java:69-72 | one packaging extension per format, position by position |
| Receipts.AddLeadingLinks | src/main/java/org/swordapp/server/DepositReceipt.java:46-67 | appends the edit, sword-edit, media-feed and edit-media links that are set, in that order |
| Receipts.AddPackagingElements | src/main/java/org/swordapp/server/DepositReceipt.java:69-72 | the loop appends exactly the packaging extensions of the formats, in list order |
| Receipts.AddLinks | src/main/java/org/swordapp/server/DepositReceipt.java:99-104 | keeps the prefix and appends one link per key of the map, each once, with that key's type, in some order |
| Receipts.AddDescriptions | src/main/java/org/swordapp/server/DepositReceipt.java:80-97 | appends treatment, verbose description, splash and original-deposit elements that are set, in that order |
| Receipts.AppendFront | src/main/java/org/swordapp/server/DepositReceipt.java:46-78 | appends the identity links, the packaging extensions, and a listing of the statements |
| Receipts.AppendBack | src/main/java/org/swordapp/server/DepositReceipt.java:80-104 | appends the descriptions and a listing of the derived resources |
| Receipts.DepositReceipt.constructor | src/main/java/org/swordapp/server/DepositReceipt.java:17-37 | a new receipt: no IRIs, empty lists and maps, the default treatment, not empty, no date |
| Receipts.DepositReceipt.SetLastModified | src/main/java/org/swordapp/server/DepositReceipt.java:113-115 | only the date changes |
| Receipts.DepositReceipt.SetEmpty | src/main/java/org/swordapp/server/DepositReceipt.java:121-123 | only the empty flag changes |
| Receipts.DepositReceipt.SetMediaFeedIRI | src/main/java/org/swordapp/server/DepositReceipt.java:125-127 | only the media-feed IRI changes |
| Receipts.DepositReceipt.SetEditMediaIRI | src/main/java/org/swordapp/server/DepositReceipt.java:129-131 | only the edit-media IRI changes |
| Receipts.DepositReceipt.SetEditIRI | src/main/java/org/swordapp/server/DepositReceipt.java:133-140 | the new state is WithEditIRI of the old one |
| Receipts.DepositReceipt.SetLocation | src/main/java/org/swordapp/server/DepositReceipt.java:146-148 | only the explicit location changes |
| Receipts.DepositReceipt.SetSwordEditIRI | src/main/java/org/swordapp/server/DepositReceipt.java:158-165 | the new state is WithSwordEditIRI of the old one |
| Receipts.DepositReceipt.SetContent | src/main/java/org/swordapp/server/DepositReceipt.java:167-169 | the wrapped entry's content becomes the given source and type; nothing else changes |
| Receipts.DepositReceipt.AddEditMediaIRI | src/main/java/org/swordapp/server/DepositReceipt.java:171-182 | both overloads: an edit-media link, typed when a type is given, joins the wrapped entry |
| Receipts.DepositReceipt.AddEditMediaFeedIRI | src/main/java/org/swordapp/server/DepositReceipt.java:184-186 | an edit-media link typed as an Atom feed joins the wrapped entry |
| Receipts.DepositReceipt.SetPackaging | src/main/java/org/swordapp/server/DepositReceipt.java:188-190 | only the packaging list changes, to the given list |
| Receipts.DepositReceipt.AddPackaging | src/main/java/org/swordapp/server/DepositReceipt.java:192-194 | the new state is WithPackaging of the old one |
| Receipts.DepositReceipt.SetOREStatementURI | src/main/java/org/swordapp/server/DepositReceipt.java:196-198 | records the statement with type application/rdf+xml |
| Receipts.DepositReceipt.SetAtomStatementURI | src/main/java/org/swordapp/server/DepositReceipt.java:200-202 | records the statement with the Atom feed type |
| Receipts.DepositReceipt.SetStatementURI | src/main/java/org/swordapp/server/DepositReceipt.java:204-206 | the new state is WithStatement of the old one; a null type is kept and renders an untyped link |
| Receipts.DepositReceipt.AddSimpleExtension | src/main/java/org/swordapp/server/DepositReceipt.java:208-210 | a named simple extension joins the wrapped entry |
| Receipts.DepositReceipt.AddToWrappedEntry | src/main/java/org/swordapp/server/DepositReceipt.java:39-41 | an element added through the wrapped entry joins its children |
| Receipts.DepositReceipt.AddDublinCore | src/main/java/org/swordapp/server/DepositReceipt.java:212-214 | a Dublin Core extension with the given term joins the wrapped entry |
| Receipts.DepositReceipt.SetTreatment | src/main/java/org/swordapp/server/DepositReceipt.java:216-218 | only the treatment changes |
| Receipts.DepositReceipt.SetVerboseDescription | src/main/java/org/swordapp/server/DepositReceipt.java:220-222 | only the verbose description changes |
| Receipts.DepositReceipt.SetSplashUri | src/main/java/org/swordapp/server/DepositReceipt.java:224-226 | only the splash URI changes |
| Receipts.DepositReceipt.SetOriginalDeposit | src/main/java/org/swordapp/server/DepositReceipt.java:228-231 | only the original-deposit URI and type change |
| Receipts.DepositReceipt.SetDerivedResources | src/main/java/org/swordapp/server/DepositReceipt.java:233-235 | only the derived-resource map changes |
| Receipts.DepositReceipt.AddDerivedResource | src/main/java/org/swordapp/server/DepositReceipt.java:237-239 | the new state is WithDerivedResource of the old one |
| Receipts.DepositReceipt.GetAbderaEntry | src/main/java/org/swordapp/server/DepositReceipt.java:43-107 | the result is a rendering of the receipt, and the receipt itself is left unchanged |
| ReceiptProperties.RenderingPieces | src/main/java/org/swordapp/server/DepositReceipt.java:43-107 | a rendering keeps the wrapped entry's children as a prefix; the added part is the eleven sections in order; both hash-map sections list their maps |
| ReceiptProperties.RenderedSections | src/main/java/org/swordapp/server/DepositReceipt.java:43-107 | section by section, the added elements are exactly those the fields call for, and nothing else is added |
| ReceiptProperties.RenderedInOrder | src/main/java/org/swordapp/server/DepositReceipt.java:43-107 | the added elements never go back to an earlier section |
| ReceiptProperties.RenderedIdentity | src/main/java/org/swordapp/server/DepositReceipt.java:46-51 | the identity is the edit IRI when set, else the wrapped entry's; an edit link is added iff the edit IRI is set, and it comes first |
| ReceiptProperties.PackagingElementsAppend | src/main/java/org/swordapp/server/DepositReceipt.java:69-72 | rendering a list with one more format adds its extension at the end |
| ReceiptProperties.AddPackagingRendersLast | src/main/java/org/swordapp/server/DepositReceipt.java:192-194 | after addPackaging, the new format is the last packaging extension rendered, after the earlier ones |
| ReceiptProperties.StatementRenderedOnce | src/main/java/org/swordapp/server/DepositReceipt.java:204-206 | after setStatementURI(t, u) there is exactly one statement link for u, typed t (untyped when t is null), and one link per distinct URI |
| ReceiptProperties.ListedOnce | src/main/java/org/swordapp/server/DepositReceipt.java:75-78 | a hash-map section holds each key's link exactly once, with its type |
| ReceiptProperties.StatementSection | src/main/java/org/swordapp/server/DepositReceipt.java:74-78 | the statement section lists every statement URI with its type, each once |
| ReceiptProperties.LocationFollowsEditIRI | src/main/java/org/swordapp/server/DepositReceipt.java:142-144 | with no explicit location, getLocation returns whatever setEditIRI set |
| ReceiptProperties.SettersKeepEditPaired | src/main/java/org/swordapp/server/DepositReceipt.java:133-165 | if both IRIs were set or both unset, either setter with a non-null IRI keeps them so |
| ReceiptProperties.NullEditIRIUnpairs | src/main/java/org/swordapp/server/DepositReceipt.java:133-140 | setEditIRI(null) after the SE-IRI is set leaves one set and one unset |
| ReceiptProperties.ExplicitIRIsCommute | src/main/java/org/swordapp/server/DepositReceipt.java:133-165 | setting both IRIs explicitly gives the same receipt in either order, and neither value is overwritten |
| ReceiptProperties.SwordEditLinkFollowsEdit | src/main/java/org/swordapp/server/DepositReceipt.java:133-140 | with only the edit IRI set, the rendered identity, edit link and sword-edit link all carry it |
| ReceiptProperties.EditLinkFollowsSwordEdit | src/main/java/org/swordapp/server/DepositReceipt.java:158-165 | with only the SE-IRI set, the rendered identity, edit link and sword-edit link all carry it |
| ReceiptProperties.FreshRendersDefaultTreatment | src/main/java/org/swordapp/server/DepositReceipt.java:17-37 | a new receipt renders to an entry with no identity, no content and only the default treatment |
| ReceiptProperties.RenderingsAgree | src/main/java/org/swordapp/server/DepositReceipt.java:74-104 | two renderings of one receipt agree on identity, content and every section except the two from hash maps |
| ReceiptProperties.RenderingsHaveSameElements | src/main/java/org/swordapp/server/DepositReceipt.java:74-104 | two renderings of one receipt have the same length and the same elements |
| Endpoint.Refuse | src/main/java/org/swordapp/server/ContainerAPI.java:38-52 | the response becomes the Refusal of the old one, with no manager call, deposit or cleanup |
| Endpoint.Conclude | src/main/java/org/swordapp/server/ContainerAPI.java:216-233 | the catch and finally blocks applied to the response equal Settle of the attempt |
| Endpoint.RefusedCredentials | src/main/java/org/swordapp/server/ContainerAPI.java:134-148 | retryable refusal: 401 with the Basic challenge for realm SWORD2; otherwise error 400 with the message; no call, deposit or cleanup |
| Endpoint.CaughtExceptions | src/main/java/org/swordapp/server/ContainerAPI.java:216-233 | a SwordError sends its error document, an auth failure 403, a server fault leaves as a ServletException with the reply untouched |
| Endpoint.CleanupOnEveryPath | src/main/java/org/swordapp/server/ContainerAPI.java:216-233 | deposit handlers clean up at least once on every path through the try block, twice exactly when a SwordError or auth failure was caught |
| Endpoint.GeneratorPrecedesSections | src/main/java/org/swordapp/server/ContainerAPI.java:383-388 | the generator follows the wrapped entry's own children and precedes every rendered section |
| Container.ContainerAPI.AddGenerator | src/main/java/org/swordapp/server/ContainerAPI.java:383-388 | the configured generator, if any, is appended to the receipt's wrapped entry |
| Container.ContainerAPI.GetTry | src/main/java/org/swordapp/server/ContainerAPI.java:54-114 | the try block of get equals GetAttempt; the entry it renders is a rendering of the receipt |
| Container.ContainerAPI.Get | src/main/java/org/swordapp/server/ContainerAPI.java:34-124 | response, trace and receipt equal GetSpec; any rendered entry is a rendering of the final receipt |
| Container.ContainerAPI.Head | src/main/java/org/swordapp/server/ContainerAPI.java:126-128 | head is get with sendBody false |
| Container.ContainerAPI.PutTry | src/main/java/org/swordapp/server/ContainerAPI.java:150-215 | the try block of put equals PutAttempt, with the line-169 check asserted to hold |
| Container.ContainerAPI.Put | src/main/java/org/swordapp/server/ContainerAPI.java:130-234 | response, trace and receipt equal PutSpec |
| Container.ContainerAPI.PostTry | src/main/java/org/swordapp/server/ContainerAPI.java:256-323 | the try block of post equals PostAttempt |
| Container.ContainerAPI.PostAnswer | src/main/java/org/swordapp/server/ContainerAPI.java:290-323 | answering with the receipt equals PostReply; any rendered entry is a rendering of the final receipt |
| Container.ContainerAPI.Post | src/main/java/org/swordapp/server/ContainerAPI.java:236-342 | response, trace and receipt equal PostSpec |
| Container.ContainerAPI.Delete | src/main/java/org/swordapp/server/ContainerAPI.java:344-381 | response and trace equal DeleteSpec |
| ContainerProperties.HeadIsGetWithoutBody | src/main/java/org/swordapp/server/ContainerAPI.java:126-128 | HEAD gives the same status, headers, error, calls and receipt as GET, and writes nothing to the body |
| ContainerProperties.GetChecksumMatchesBody | src/main/java/org/swordapp/server/ContainerAPI.java:73-113 | when GET completes, exactly one text is written and Content-MD5 is the checksum of that text |
| ContainerProperties.GetStatementReply | src/main/java/org/swordapp/server/ContainerAPI.java:61-85 | a statement request gets the statement's type, date or now, checksum and text; Location is not touched |
| ContainerProperties.GetEntryReply | src/main/java/org/swordapp/server/ContainerAPI.java:86-113 | otherwise the receipt: entry type, its Location, date or now, the rendered entry; the receipt gains the generator |
| ContainerProperties.GetNullLocation | src/main/java/org/swordapp/server/ContainerAPI.java:90-92 | a receipt without location or edit IRI: Content-Type set, then an uncaught null dereference |
| ContainerProperties.EntryTypeCheckNeverFails | src/main/java/org/swordapp/server/ContainerAPI.java:167-171 | every content type routed to the Atom branch passes the second content-type test |
| ContainerProperties.InProgressReadFirst | src/main/java/org/swordapp/server/ContainerAPI.java:157-161 | a failing In-Progress header ends PUT and POST before any deposit or manager call |
| ContainerProperties.PutRouting | src/main/java/org/swordapp/server/ContainerAPI.java:152-180 | multipart is refused 405-style, non-Atom as bad request; replaceMetadata is called iff an entry was read, with In-Progress set |
| ContainerProperties.PutReplyCases | src/main/java/org/swordapp/server/ContainerAPI.java:182-215 | no Location is a server fault; else 200 with the rendered receipt when asked and non-empty, or 204; both with Location |
| ContainerProperties.PostRouting | src/main/java/org/swordapp/server/ContainerAPI.java:259-288 | Atom goes to addMetadata, an empty body to useHeaders, else addResources; called iff the body reader succeeds |
| ContainerProperties.PostAcceptsMultipart | src/main/java/org/swordapp/server/ContainerAPI.java:279-288 | a non-empty multipart body is passed to addResources as binary content |
| ContainerProperties.PostReplyCases | src/main/java/org/swordapp/server/ContainerAPI.java:290-323 | the status is never set; Location is sent iff the receipt has one; the rendered receipt with checksum when asked and non-empty |
| ContainerProperties.DeleteReply | src/main/java/org/swordapp/server/ContainerAPI.java:364-380 | one deleteContainer call, no cleanup; on success exactly status 204 |
| Media.PackagingOrDefault | src/main/java/org/swordapp/server/MediaResourceAPI.java:75-81 | never empty; a non-empty packaging passes through, otherwise SimpleZip |
| Media.ContentTypeOrDefault | src/main/java/org/swordapp/server/MediaResourceAPI.java:83-87 | never empty; a non-empty type passes through, otherwise application/octet-stream |
| Media.MediaResourceAPI.AddGenerator | src/main/java/org/swordapp/server/MediaResourceAPI.java:298-303 | the configured generator, if any, is appended to the receipt's wrapped entry |
| Media.MediaResourceAPI.Get | src/main/java/org/swordapp/server/MediaResourceAPI.java:33-123 | response and trace equal GetSpec |
| Media.MediaResourceAPI.Head | src/main/java/org/swordapp/server/MediaResourceAPI.java:125-127 | head is get with sendBody false |
| Media.MediaResourceAPI.Put | src/main/java/org/swordapp/server/MediaResourceAPI.java:129-183 | response and trace equal PutSpec |
| Media.MediaResourceAPI.PostTry | src/main/java/org/swordapp/server/MediaResourceAPI.java:205-238 | the try block of post equals PostAttempt |
| Media.MediaResourceAPI.Post | src/main/java/org/swordapp/server/MediaResourceAPI.java:185-257 | response, trace and receipt equal PostSpec |
| Media.MediaResourceAPI.Delete | src/main/java/org/swordapp/server/MediaResourceAPI.java:259-296 | response and trace equal DeleteSpec |
| MediaProperties.GetHonoursMediaAccess | src/main/java/org/swordapp/server/MediaResourceAPI.java:40-60 | GET reaches the manager iff the credentials pass under the configured unauthenticated-access setting |
| MediaProperties.ChangesRequireCredentials | src/main/java/org/swordapp/server/MediaResourceAPI.java:134-147 | PUT, POST and DELETE go past the gate iff credentials are given, whatever that setting |
| MediaProperties.GetReply | src/main/java/org/swordapp/server/MediaResourceAPI.java:62-112 | Packaging only for packaged content; non-empty type and packaging; the manager's checksum as given; the bytes iff a body is sent |
| MediaProperties.HeadIsGetWithoutBody | src/main/java/org/swordapp/server/MediaResourceAPI.java:125-127 | HEAD answers as GET and writes nothing to the body |
| MediaProperties.PutIgnoresContentType | src/main/java/org/swordapp/server/MediaResourceAPI.java:151-164 | PUT's answer does not depend on the content type |
| MediaProperties.PutReplyCases | src/main/java/org/swordapp/server/MediaResourceAPI.java:151-164 | replaceMediaResource gets a binary deposit; 204 with Location, or an uncaught null dereference without one |
| MediaProperties.PostRejectsMultipart | src/main/java/org/swordapp/server/MediaResourceAPI.java:207-213 | multipart is refused before the body is read: blank deposit, no call, two cleanups |
| MediaProperties.PostRouting | src/main/java/org/swordapp/server/MediaResourceAPI.java:209-220 | addResource gets a binary deposit carrying Metadata-Relevant, unless a read fails |
| MediaProperties.PostReplyCases | src/main/java/org/swordapp/server/MediaResourceAPI.java:222-238 | no Location is a server fault; else 201 with Location, plus the rendered receipt when asked and non-empty |
| MediaProperties.DeleteReply | src/main/java/org/swordapp/server/MediaResourceAPI.java:279-295 | one deleteMediaResource call, no cleanup; on success exactly status 204 |

## Left out

- Servlet I/O (the writer, the output stream, flushing) is modelled as a sequence of body writes. An IOException on the way is not modelled.
- Abdera's serialisation, ChecksumUtils.hash and the date format are opaque functions in `Toolkit`. The current time is the value `now`.
- The superclass helpers are inputs carried by `Request`:
  - getAuthCredentials, getContentType and getFullUrl;
  - getInProgress, getMetadataRelevant;
  - the two deposit-property readers (given only by the exception they may throw).
  SwordAPIEndpoint.java is not part of this model.
- The superclass preparation (super.get, super.put and the like) is not modelled.
- cleanup is counted in the trace, not performed.
- Endpoint.CaughtExceptions: swordError is recorded only as the error document it sends. The status it picks and the headers and body it writes (the error document's content type and its serialisation) are not modelled, so the unchanged body and headers this lemma states for a caught SwordError hold of the model, not of the servlet response.
- The credentials are not passed to the managers in the modelled calls. Only the IRI, the Accept headers or the deposit are recorded.
- UriRegistry.java is not part of this model. Link relations and extension names are symbolic constructors. `PackageSimpleZip` takes the SimpleZip packaging URI of the SWORD 2.0 profile.
- Logging in the media endpoint is left out.
- Receipts.DepositReceipt.GetAbderaEntry: the statement and derived-resource links come out in an order left open. That order is HashMap iteration order, which is not specified.
- Receipts.DepositReceipt.SetPackaging: the list is copied, not shared. A caller that later changes the list it passed would change the receipt in the source, but not in this model. SetDerivedResources likewise.
- Media.MediaResourceAPI.Get: the manager's Content-MD5 is a string. A null checksum handed to setHeader is not modelled.
- Receipts.DepositReceipt.SetLastModified: dates are integers. The defensive copies of Date and a null argument are not modelled.
