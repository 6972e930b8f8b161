/**
 * The deposit receipt: a mutable record of optional IRIs and strings, a
 * packaging list and two URI-to-media-type maps, rendered into an Atom entry.
 *
 * `ReceiptState` is the value of a receipt at one moment; the class
 * `DepositReceipt` holds the same fields and updates them in place, and each
 * of its methods says how its new `State()` follows from the old one.
 */
module Receipts {
  import opened Wrappers
  import opened Atom

  const DefaultTreatment: string := "no treatment information available"
  const OreStatementType: string := "application/rdf+xml"
  const AtomStatementType: string := AtomFeedType

  datatype ReceiptState = ReceiptState(
    packagingFormats: seq<string>,
    editIRI: Option<string>,
    seIRI: Option<string>,
    emIRI: Option<string>,
    feedIRI: Option<string>,
    location: Option<string>,
    entry: Entry,
    statements: map<string, Option<string>>,
    treatment: Option<string>,
    verboseDescription: Option<string>,
    splashUri: Option<string>,
    originalDepositUri: Option<string>,
    originalDepositType: Option<string>,
    derivedResources: map<string, Option<string>>,
    empty: bool,
    lastModified: Option<int>)
  {
    /** The response location: the explicit one, else the edit IRI. */
    function Location(): (l: Option<string>)
      ensures location.Some? ==> l == location
      ensures location.None? ==> l == editIRI
      ensures l.Some? <==> location.Some? || editIRI.Some?
    {
      if location.None? then editIRI else location
    }

    /** setEditIRI: the SE-IRI follows the edit IRI only while it is unset. */
    function WithEditIRI(x: Option<string>): (r: ReceiptState)
      ensures r.editIRI == x
      ensures seIRI.None? ==> r.seIRI == x
      ensures seIRI.Some? ==> r.seIRI == seIRI
      ensures r.(editIRI := editIRI, seIRI := seIRI) == this
    {
      this.(editIRI := x, seIRI := if seIRI.None? then x else seIRI)
    }

    /** setSwordEditIRI: the edit IRI follows the SE-IRI only while it is unset. */
    function WithSwordEditIRI(x: Option<string>): (r: ReceiptState)
      ensures r.seIRI == x
      ensures editIRI.None? ==> r.editIRI == x
      ensures editIRI.Some? ==> r.editIRI == editIRI
      ensures r.(editIRI := editIRI, seIRI := seIRI) == this
    {
      this.(seIRI := x, editIRI := if editIRI.None? then x else editIRI)
    }

    /** addPackaging: the format goes to the end of the list; duplicates are kept. */
    function WithPackaging(format: string): (r: ReceiptState)
      ensures |r.packagingFormats| == |packagingFormats| + 1
      ensures r.packagingFormats[..|packagingFormats|] == packagingFormats
      ensures r.packagingFormats[|packagingFormats|] == format
      ensures r.(packagingFormats := packagingFormats) == this
    {
      this.(packagingFormats := packagingFormats + [format])
    }

    /**
     * setStatementURI: statements are keyed by URI, so a second call
     * overwrites the type; a null type gives an untyped link.
     */
    function WithStatement(mediaType: Option<string>, uri: string): (r: ReceiptState)
      ensures r.statements.Keys == statements.Keys + {uri}
      ensures r.statements[uri] == mediaType
      ensures forall u :: u in statements && u != uri ==> r.statements[u] == statements[u]
      ensures r.(statements := statements) == this
    {
      this.(statements := statements[uri := mediaType])
    }

    /** addDerivedResource: keyed by URI like the statements; the type may be null. */
    function WithDerivedResource(uri: string, mediaType: Option<string>): (r: ReceiptState)
      ensures r.derivedResources.Keys == derivedResources.Keys + {uri}
      ensures r.derivedResources[uri] == mediaType
      ensures forall u :: u in derivedResources && u != uri ==> r.derivedResources[u] == derivedResources[u]
      ensures r.(derivedResources := derivedResources) == this
    {
      this.(derivedResources := derivedResources[uri := mediaType])
    }

    /** An element appended to the wrapped entry, as collaborators and the endpoints do. */
    function WithWrappedElement(el: Element): (r: ReceiptState)
      ensures r.entry.children == entry.children + [el]
      ensures r.entry.id == entry.id && r.entry.content == entry.content
      ensures r.(entry := entry) == this
    {
      this.(entry := entry.(children := entry.children + [el]))
    }
  }

  /** The state of a newly constructed receipt. */
  function Fresh(): ReceiptState {
    ReceiptState([], None, None, None, None, None, EmptyEntry, map[], Some(DefaultTreatment),
                 None, None, None, None, map[], false, None)
  }

  // ---------------------------------------------------------------------------
  // What getAbderaEntry renders

  function EditPart(s: ReceiptState): seq<Element> {
    if s.editIRI.Some? then [Link(s.editIRI.value, RelEdit, None)] else []
  }

  function SwordEditPart(s: ReceiptState): seq<Element> {
    if s.seIRI.Some? then [Link(s.seIRI.value, RelSwordEdit, None)] else []
  }

  function MediaFeedPart(s: ReceiptState): seq<Element> {
    if s.feedIRI.Some? then [Link(s.feedIRI.value, RelEditMedia, Some(AtomFeedType))] else []
  }

  function EditMediaPart(s: ReceiptState): seq<Element> {
    if s.emIRI.Some? then [Link(s.emIRI.value, RelEditMedia, None)] else []
  }

  /** The links of the identity group: edit, sword-edit, the media feed, edit-media. */
  function LeadingLinks(s: ReceiptState): seq<Element> {
    EditPart(s) + SwordEditPart(s) + MediaFeedPart(s) + EditMediaPart(s)
  }

  /** One packaging extension per format, in list order. */
  function PackagingElements(formats: seq<string>): (es: seq<Element>)
    ensures |es| == |formats|
    ensures forall i :: 0 <= i < |formats| ==> es[i] == Ext(PackagingExt, formats[i])
  {
    if formats == [] then [] else [Ext(PackagingExt, formats[0])] + PackagingElements(formats[1..])
  }

  function TreatmentPart(s: ReceiptState): seq<Element> {
    if s.treatment.Some? then [Ext(TreatmentExt, s.treatment.value)] else []
  }

  function VerboseDescriptionPart(s: ReceiptState): seq<Element> {
    if s.verboseDescription.Some? then [Ext(VerboseDescriptionExt, s.verboseDescription.value)] else []
  }

  function SplashPart(s: ReceiptState): seq<Element> {
    if s.splashUri.Some? then [Link(s.splashUri.value, RelAlternate, None)] else []
  }

  /** The original-deposit link carries a media type only when one is known. */
  function OriginalDepositPart(s: ReceiptState): seq<Element> {
    if s.originalDepositUri.Some? then [Link(s.originalDepositUri.value, RelOriginalDeposit, s.originalDepositType)] else []
  }

  /** Treatment, verbose description, splash page and original deposit. */
  function Descriptions(s: ReceiptState): seq<Element> {
    TreatmentPart(s) + VerboseDescriptionPart(s) + SplashPart(s) + OriginalDepositPart(s)
  }

  /**
   * `g` lists the links of a map in some order: one link with relation `rel`
   * per key, carrying that key's media type. The order is the hash map's
   * iteration order and is left open.
   */
  ghost predicate ListsLinks(g: seq<Element>, rel: Rel, m: map<string, Option<string>>) {
    && |g| == |m|
    && (forall i :: 0 <= i < |g| ==> g[i].Link? && g[i].rel == rel && g[i].href in m && g[i].mime == m[g[i].href])
    && (forall i, j :: 0 <= i < j < |g| ==> g[i].href != g[j].href)
    && (forall u :: u in m ==> exists i :: 0 <= i < |g| && g[i].href == u)
  }

  /**
   * The elements getAbderaEntry adds after the wrapped entry's own children,
   * given the order `st` of the statement links and `dr` of the
   * derived-resource links.
   */
  function Sections(s: ReceiptState, st: seq<Element>, dr: seq<Element>): seq<Element> {
    LeadingLinks(s) + PackagingElements(s.packagingFormats) + st + Descriptions(s) + dr
  }

  /**
   * `e` is what getAbderaEntry returns for a receipt in state `s`: the wrapped
   * entry with the edit IRI as its identity (when set) and, after its own
   * children, the rendered sections in their fixed order.
   */
  ghost predicate IsRenderingOf(e: Entry, s: ReceiptState) {
    && e.id == (if s.editIRI.Some? then s.editIRI else s.entry.id)
    && e.content == s.entry.content
    && exists st: seq<Element>, dr: seq<Element> ::
         && ListsLinks(st, RelStatement, s.statements)
         && ListsLinks(dr, RelDerivedResource, s.derivedResources)
         && e.children == s.entry.children + Sections(s, st, dr)
  }

  /** Appends the edit, sword-edit, media-feed and edit-media links that are set. */
  method AddLeadingLinks(children: seq<Element>, s: ReceiptState) returns (out: seq<Element>)
    ensures out == children + LeadingLinks(s)
  {
    out := children;
    if s.editIRI.Some? {
      out := out + [Link(s.editIRI.value, RelEdit, None)];
    }
    if s.seIRI.Some? {
      out := out + [Link(s.seIRI.value, RelSwordEdit, None)];
    }
    if s.feedIRI.Some? {
      out := out + [Link(s.feedIRI.value, RelEditMedia, Some(AtomFeedType))];
    }
    if s.emIRI.Some? {
      out := out + [Link(s.emIRI.value, RelEditMedia, None)];
    }
  }

  /** Appends the treatment, verbose description, splash and original-deposit elements that are set. */
  method AddDescriptions(children: seq<Element>, s: ReceiptState) returns (out: seq<Element>)
    ensures out == children + Descriptions(s)
  {
    out := children;
    if s.treatment.Some? {
      out := out + [Ext(TreatmentExt, s.treatment.value)];
    }
    if s.verboseDescription.Some? {
      out := out + [Ext(VerboseDescriptionExt, s.verboseDescription.value)];
    }
    if s.splashUri.Some? {
      out := out + [Link(s.splashUri.value, RelAlternate, None)];
    }
    if s.originalDepositUri.Some? {
      out := out + [Link(s.originalDepositUri.value, RelOriginalDeposit, s.originalDepositType)];
    }
  }

  /** Appends one packaging extension per format, walking the list in order. */
  method AddPackagingElements(children: seq<Element>, formats: seq<string>) returns (out: seq<Element>)
    ensures out == children + PackagingElements(formats)
  {
    out := children;
    for i := 0 to |formats|
      invariant |out| == |children| + i && out[..|children|] == children
      invariant forall k :: 0 <= k < i ==> out[|children| + k] == Ext(PackagingExt, formats[k])
    {
      out := out + [Ext(PackagingExt, formats[i])];
    }
    assert out[|children|..] == PackagingElements(formats);
  }

  /** Appends one link per key of `m`, visiting the keys in an unspecified order. */
  method AddLinks(children: seq<Element>, rel: Rel, m: map<string, Option<string>>) returns (out: seq<Element>)
    ensures |children| <= |out| && out[..|children|] == children
    ensures ListsLinks(out[|children|..], rel, m)
  {
    out := children;
    var remaining := m.Keys;
    ghost var listed: seq<string> := [];
    while remaining != {}
      invariant remaining <= m.Keys
      invariant |listed| + |remaining| == |m|
      invariant |out| == |children| + |listed| && out[..|children|] == children
      invariant forall i :: 0 <= i < |listed| ==> listed[i] in m && listed[i] !in remaining
      invariant forall i :: 0 <= i < |listed| ==> out[|children| + i] == Link(listed[i], rel, m[listed[i]])
      invariant forall i, j :: 0 <= i < j < |listed| ==> listed[i] != listed[j]
      invariant forall u :: u in m && u !in remaining ==> u in listed
      decreases |remaining|
    {
      var u :| u in remaining;
      out := out + [Link(u, rel, m[u])];
      listed := listed + [u];
      remaining := remaining - {u};
    }
    ghost var g := out[|children|..];
    assert forall i :: 0 <= i < |g| ==> g[i] == Link(listed[i], rel, m[listed[i]]);
    forall u | u in m
      ensures exists i :: 0 <= i < |g| && g[i].Link? && g[i].href == u
    {
      var i :| 0 <= i < |listed| && listed[i] == u;
      assert g[i].href == u;
    }
  }

  /** Re-associates one concatenation step of the rendering. */
  lemma Regroup(w: seq<Element>, a: seq<Element>, b: seq<Element>, c: seq<Element>)
    requires c == w + a + b
    ensures c == w + (a + b)
  {
  }

  /** The first half of getAbderaEntry: the identity links, the packaging formats, the statements. */
  method AppendFront(children: seq<Element>, s: ReceiptState) returns (out: seq<Element>, ghost st: seq<Element>)
    ensures ListsLinks(st, RelStatement, s.statements)
    ensures out == children + (LeadingLinks(s) + PackagingElements(s.packagingFormats) + st)
  {
    out := AddLeadingLinks(children, s);
    out := AddPackagingElements(out, s.packagingFormats);
    Regroup(children, LeadingLinks(s), PackagingElements(s.packagingFormats), out);
    ghost var packed := out;
    out := AddLinks(out, RelStatement, s.statements);
    st := out[|packed|..];
    assert out == packed + st;
    Regroup(children, LeadingLinks(s) + PackagingElements(s.packagingFormats), st, out);
  }

  /** The second half of getAbderaEntry: the descriptions, then the derived resources. */
  method AppendBack(children: seq<Element>, s: ReceiptState) returns (out: seq<Element>, ghost dr: seq<Element>)
    ensures ListsLinks(dr, RelDerivedResource, s.derivedResources)
    ensures out == children + (Descriptions(s) + dr)
  {
    out := AddDescriptions(children, s);
    ghost var described := out;
    out := AddLinks(out, RelDerivedResource, s.derivedResources);
    dr := out[|described|..];
    assert out == described + dr;
  }

  lemma SectionsSplit(s: ReceiptState, st: seq<Element>, dr: seq<Element>)
    ensures Sections(s, st, dr) == (LeadingLinks(s) + PackagingElements(s.packagingFormats) + st) + (Descriptions(s) + dr)
  {
  }

  lemma RenderingFrom(e: Entry, s: ReceiptState, st: seq<Element>, dr: seq<Element>)
    requires e.id == (if s.editIRI.Some? then s.editIRI else s.entry.id) && e.content == s.entry.content
    requires ListsLinks(st, RelStatement, s.statements)
    requires ListsLinks(dr, RelDerivedResource, s.derivedResources)
    requires e.children == s.entry.children + Sections(s, st, dr)
    ensures IsRenderingOf(e, s)
  {
  }

  class DepositReceipt {
    var packagingFormats: seq<string>
    var editIRI: Option<string>
    var seIRI: Option<string>
    var emIRI: Option<string>
    var feedIRI: Option<string>
    var location: Option<string>
    var entry: Entry
    var statements: map<string, Option<string>>
    var treatment: Option<string>
    var verboseDescription: Option<string>
    var splashUri: Option<string>
    var originalDepositUri: Option<string>
    var originalDepositType: Option<string>
    var derivedResources: map<string, Option<string>>
    var empty: bool
    var lastModified: Option<int>

    /** The receipt's fields as one value. */
    function State(): ReceiptState
      reads this
    {
      ReceiptState(packagingFormats, editIRI, seIRI, emIRI, feedIRI, location, entry, statements,
                   treatment, verboseDescription, splashUri, originalDepositUri, originalDepositType,
                   derivedResources, empty, lastModified)
    }

    constructor ()
      ensures State() == Fresh()
    {
      packagingFormats := [];
      editIRI, seIRI, emIRI, feedIRI, location := None, None, None, None, None;
      entry := EmptyEntry;
      statements := map[];
      treatment := Some(DefaultTreatment);
      verboseDescription, splashUri := None, None;
      originalDepositUri, originalDepositType := None, None;
      derivedResources := map[];
      empty := false;
      lastModified := None;
    }

    /** getLocation */
    function GetLocation(): Option<string>
      reads this
    {
      State().Location()
    }

    method SetLastModified(t: int)
      modifies this
      ensures State() == old(State()).(lastModified := Some(t))
    {
      lastModified := Some(t);
    }

    method SetEmpty(b: bool)
      modifies this
      ensures State() == old(State()).(empty := b)
    {
      empty := b;
    }

    method SetMediaFeedIRI(x: Option<string>)
      modifies this
      ensures State() == old(State()).(feedIRI := x)
    {
      feedIRI := x;
    }

    method SetEditMediaIRI(x: Option<string>)
      modifies this
      ensures State() == old(State()).(emIRI := x)
    {
      emIRI := x;
    }

    method SetEditIRI(x: Option<string>)
      modifies this
      ensures State() == old(State()).WithEditIRI(x)
    {
      editIRI := x;
      if seIRI.None? {
        seIRI := x;
      }
    }

    method SetLocation(x: Option<string>)
      modifies this
      ensures State() == old(State()).(location := x)
    {
      location := x;
    }

    method SetSwordEditIRI(x: Option<string>)
      modifies this
      ensures State() == old(State()).WithSwordEditIRI(x)
    {
      seIRI := x;
      if editIRI.None? {
        editIRI := x;
      }
    }

    /** setContent: on the wrapped entry. */
    method SetContent(href: string, mediaType: string)
      modifies this
      ensures State() == old(State()).(entry := old(entry).(content := Some(Content(href, mediaType))))
    {
      entry := entry.(content := Some(Content(href, mediaType)));
    }

    /** Both addEditMediaIRI overloads: an edit-media link on the wrapped entry, typed when a type is given. */
    method AddEditMediaIRI(href: string, mediaType: Option<string>)
      modifies this
      ensures State() == old(State()).WithWrappedElement(Link(href, RelEditMedia, mediaType))
    {
      entry := entry.(children := entry.children + [Link(href, RelEditMedia, mediaType)]);
    }

    method AddEditMediaFeedIRI(href: string)
      modifies this
      ensures State() == old(State()).WithWrappedElement(Link(href, RelEditMedia, Some(AtomFeedType)))
    {
      AddEditMediaIRI(href, Some(AtomFeedType));
    }

    method SetPackaging(formats: seq<string>)
      modifies this
      ensures State() == old(State()).(packagingFormats := formats)
    {
      packagingFormats := formats;
    }

    method AddPackaging(format: string)
      modifies this
      ensures State() == old(State()).WithPackaging(format)
    {
      packagingFormats := packagingFormats + [format];
    }

    method SetOREStatementURI(uri: string)
      modifies this
      ensures State() == old(State()).WithStatement(Some(OreStatementType), uri)
    {
      SetStatementURI(Some(OreStatementType), uri);
    }

    method SetAtomStatementURI(uri: string)
      modifies this
      ensures State() == old(State()).WithStatement(Some(AtomStatementType), uri)
    {
      SetStatementURI(Some(AtomStatementType), uri);
    }

    method SetStatementURI(mediaType: Option<string>, uri: string)
      modifies this
      ensures State() == old(State()).WithStatement(mediaType, uri)
    {
      statements := statements[uri := mediaType];
    }

    method AddSimpleExtension(namespace: string, local: string, value: string)
      modifies this
      ensures State() == old(State()).WithWrappedElement(Ext(Named(namespace, local), value))
    {
      entry := entry.(children := entry.children + [Ext(Named(namespace, local), value)]);
    }

    /** getWrappedEntry().addExtension(el): the element goes onto the wrapped entry itself. */
    method AddToWrappedEntry(el: Element)
      modifies this
      ensures State() == old(State()).WithWrappedElement(el)
    {
      entry := entry.(children := entry.children + [el]);
    }

    method AddDublinCore(term: string, value: string)
      modifies this
      ensures State() == old(State()).WithWrappedElement(Ext(DublinCore(term), value))
    {
      entry := entry.(children := entry.children + [Ext(DublinCore(term), value)]);
    }

    method SetTreatment(t: Option<string>)
      modifies this
      ensures State() == old(State()).(treatment := t)
    {
      treatment := t;
    }

    method SetVerboseDescription(d: Option<string>)
      modifies this
      ensures State() == old(State()).(verboseDescription := d)
    {
      verboseDescription := d;
    }

    method SetSplashUri(u: Option<string>)
      modifies this
      ensures State() == old(State()).(splashUri := u)
    {
      splashUri := u;
    }

    method SetOriginalDeposit(uri: Option<string>, mediaType: Option<string>)
      modifies this
      ensures State() == old(State()).(originalDepositUri := uri, originalDepositType := mediaType)
    {
      originalDepositUri := uri;
      originalDepositType := mediaType;
    }

    method SetDerivedResources(m: map<string, Option<string>>)
      modifies this
      ensures State() == old(State()).(derivedResources := m)
    {
      derivedResources := m;
    }

    method AddDerivedResource(uri: string, mediaType: Option<string>)
      modifies this
      ensures State() == old(State()).WithDerivedResource(uri, mediaType)
    {
      derivedResources := derivedResources[uri := mediaType];
    }

    /**
     * getAbderaEntry: renders onto a copy of the wrapped entry. The method has
     * no modifies clause, so the receipt and its wrapped entry are unchanged.
     */
    method GetAbderaEntry() returns (e: Entry)
      ensures IsRenderingOf(e, State())
    {
      var s := State();
      var id := if editIRI.Some? then editIRI else entry.id;
      var front, st := AppendFront(entry.children, s);
      var children, dr := AppendBack(front, s);
      Regroup(entry.children, LeadingLinks(s) + PackagingElements(s.packagingFormats) + st, Descriptions(s) + dr, children);
      SectionsSplit(s, st, dr);
      e := Entry(id, entry.content, children);
      RenderingFrom(e, s, st, dr);
    }
  }
}
