/**
 * Properties of the rendered deposit receipt and of the receipt's setters.
 *
 * Each element getAbderaEntry adds belongs to one section of the receipt; its
 * `Rank` is that section's place in the fixed rendering order. `Group(es, k)`
 * keeps the elements of section `k`, in the order they occur.
 */
module ReceiptProperties {
  import opened Wrappers
  import opened Atom
  import opened Receipts

  function Rank(el: Element): nat {
    match el
    case Link(_, rel, mime) =>
      (match rel
       case RelEdit => 0
       case RelSwordEdit => 1
       case RelEditMedia => if mime.Some? then 2 else 3
       case RelStatement => 5
       case RelAlternate => 8
       case RelOriginalDeposit => 9
       case RelDerivedResource => 10)
    case Ext(name, _) =>
      (match name
       case PackagingExt => 4
       case TreatmentExt => 6
       case VerboseDescriptionExt => 7
       case _ => 11)
  }

  /** The elements of `es` whose rank is `k`, in order. */
  function Group(es: seq<Element>, k: nat): (g: seq<Element>)
    ensures |g| <= |es|
    ensures forall i :: 0 <= i < |g| ==> Rank(g[i]) == k && g[i] in es
  {
    if es == [] then [] else (if Rank(es[0]) == k then [es[0]] else []) + Group(es[1..], k)
  }

  /** Ranks never decrease along `es`. */
  ghost predicate InOrder(es: seq<Element>) {
    forall i, j :: 0 <= i < j < |es| ==> Rank(es[i]) <= Rank(es[j])
  }

  ghost predicate RanksWithin(es: seq<Element>, lo: nat, hi: nat) {
    forall i :: 0 <= i < |es| ==> lo <= Rank(es[i]) <= hi
  }

  /** What getAbderaEntry added after the wrapped entry's own children. */
  function Added(e: Entry, s: ReceiptState): seq<Element>
    requires |s.entry.children| <= |e.children|
  {
    e.children[|s.entry.children|..]
  }

  // ---------------------------------------------------------------------------
  // Group

  lemma {:induction false} GroupAppend(a: seq<Element>, b: seq<Element>, k: nat)
    ensures Group(a + b, k) == Group(a, k) + Group(b, k)
  {
    if a == [] {
      assert a + b == b;
    } else {
      assert (a + b)[1..] == a[1..] + b;
      GroupAppend(a[1..], b, k);
    }
  }

  /** Every element of `es` belongs to section `r`. */
  ghost predicate RankedAs(es: seq<Element>, r: nat) {
    forall i :: 0 <= i < |es| ==> Rank(es[i]) == r
  }

  lemma {:induction false} GroupOfRanked(es: seq<Element>, r: nat, k: nat)
    requires RankedAs(es, r)
    ensures Group(es, k) == if k == r then es else []
  {
    if es != [] {
      GroupOfRanked(es[1..], r, k);
    }
  }

  lemma {:induction false} GroupHas(es: seq<Element>, i: nat)
    requires i < |es|
    ensures es[i] in Group(es, Rank(es[i]))
  {
    if i > 0 {
      GroupHas(es[1..], i - 1);
    }
  }

  lemma InOrderAppend(a: seq<Element>, b: seq<Element>, mid: nat)
    requires InOrder(a) && RanksWithin(a, 0, mid)
    requires InOrder(b) && RanksWithin(b, mid, mid)
    ensures InOrder(a + b) && RanksWithin(a + b, 0, mid)
  {
    forall i, j | 0 <= i < j < |a + b|
      ensures Rank((a + b)[i]) <= Rank((a + b)[j])
    {
      if j < |a| {
        assert (a + b)[i] == a[i] && (a + b)[j] == a[j];
      } else if i >= |a| {
        assert (a + b)[i] == b[i - |a|] && (a + b)[j] == b[j - |a|];
      } else {
        assert (a + b)[i] == a[i] && (a + b)[j] == b[j - |a|];
      }
    }
    forall i | 0 <= i < |a + b|
      ensures 0 <= Rank((a + b)[i]) <= mid
    {
      if i < |a| {
        assert (a + b)[i] == a[i];
      } else {
        assert (a + b)[i] == b[i - |a|];
      }
    }
  }

  // ---------------------------------------------------------------------------
  // Sections as a list

  /** The sections joined left to right. */
  function Concat(parts: seq<seq<Element>>): seq<Element> {
    if parts == [] then [] else Concat(parts[..|parts| - 1]) + parts[|parts| - 1]
  }

  /** The rendered sections in order; section `k` holds the elements of rank `k`. */
  function SectionList(s: ReceiptState, st: seq<Element>, dr: seq<Element>): seq<seq<Element>> {
    [EditPart(s), SwordEditPart(s), MediaFeedPart(s), EditMediaPart(s),
     PackagingElements(s.packagingFormats), st,
     TreatmentPart(s), VerboseDescriptionPart(s), SplashPart(s), OriginalDepositPart(s), dr]
  }

  /** Each section sits at the index of its rank. */
  ghost predicate Stratified(parts: seq<seq<Element>>) {
    forall i :: 0 <= i < |parts| ==> RankedAs(parts[i], i)
  }

  lemma ConcatPrefix(parts: seq<seq<Element>>, i: nat)
    requires 0 < i <= |parts|
    ensures Concat(parts[..i]) == Concat(parts[..i - 1]) + parts[i - 1]
  {
    assert parts[..i][..i - 1] == parts[..i - 1];
  }

  lemma SectionsAsList(s: ReceiptState, st: seq<Element>, dr: seq<Element>)
    ensures Sections(s, st, dr) == Concat(SectionList(s, st, dr))
  {
    var l := SectionList(s, st, dr);
    assert l[..0] == [];
    ConcatPrefix(l, 1);
    ConcatPrefix(l, 2);
    ConcatPrefix(l, 3);
    ConcatPrefix(l, 4);
    assert Concat(l[..4]) == LeadingLinks(s);
    ConcatPrefix(l, 5);
    ConcatPrefix(l, 6);
    var c6 := Concat(l[..6]);
    assert c6 == LeadingLinks(s) + PackagingElements(s.packagingFormats) + st;
    ConcatPrefix(l, 7);
    ConcatPrefix(l, 8);
    ConcatPrefix(l, 9);
    ConcatPrefix(l, 10);
    var t, v, sp, o := TreatmentPart(s), VerboseDescriptionPart(s), SplashPart(s), OriginalDepositPart(s);
    assert Concat(l[..10]) == c6 + t + v + sp + o;
    Regroup(c6, t, v, c6 + t + v);
    Regroup(c6, t + v, sp, c6 + t + v + sp);
    Regroup(c6, t + v + sp, o, c6 + t + v + sp + o);
    ConcatPrefix(l, 11);
    assert l[..11] == l;
  }

  lemma StratifiedInit(parts: seq<seq<Element>>)
    requires Stratified(parts) && parts != []
    ensures Stratified(parts[..|parts| - 1])
    ensures RankedAs(parts[|parts| - 1], |parts| - 1)
  {
    var init := parts[..|parts| - 1];
    forall i | 0 <= i < |init| ensures RankedAs(init[i], i) {
      assert init[i] == parts[i];
    }
  }

  lemma {:induction false} GroupOfConcat(parts: seq<seq<Element>>, k: nat)
    requires Stratified(parts)
    ensures Group(Concat(parts), k) == if k < |parts| then parts[k] else []
  {
    if parts != [] {
      var init, last := parts[..|parts| - 1], parts[|parts| - 1];
      StratifiedInit(parts);
      GroupOfConcat(init, k);
      GroupAppend(Concat(init), last, k);
      GroupOfRanked(last, |init|, k);
      assert Concat(parts) == Concat(init) + last;
      if k < |init| {
        assert parts[k] == init[k];
        assert Group(Concat(parts), k) == init[k] + [];
      } else if k == |init| {
        assert Group(Concat(parts), k) == [] + last;
      } else {
        assert Group(Concat(parts), k) == [] + [];
      }
    }
  }

  lemma {:induction false} ConcatInOrder(parts: seq<seq<Element>>)
    requires Stratified(parts)
    ensures InOrder(Concat(parts))
    ensures RanksWithin(Concat(parts), 0, if |parts| == 0 then 0 else |parts| - 1)
  {
    if parts != [] {
      var init, last := parts[..|parts| - 1], parts[|parts| - 1];
      StratifiedInit(parts);
      ConcatInOrder(init);
      InOrderAppend(Concat(init), last, |init|);
    }
  }

  lemma ListedLinksRanked(g: seq<Element>, rel: Rel, m: map<string, Option<string>>)
    requires ListsLinks(g, rel, m)
    ensures rel == RelStatement ==> RankedAs(g, 5)
    ensures rel == RelDerivedResource ==> RankedAs(g, 10)
  {
  }

  lemma SectionListStratified(s: ReceiptState, st: seq<Element>, dr: seq<Element>)
    requires RankedAs(st, 5) && RankedAs(dr, 10)
    ensures Stratified(SectionList(s, st, dr))
  {
    var l := SectionList(s, st, dr);
    assert RankedAs(l[0], 0) && RankedAs(l[1], 1) && RankedAs(l[2], 2) && RankedAs(l[3], 3);
    assert RankedAs(l[4], 4) && RankedAs(l[5], 5);
    assert RankedAs(l[6], 6) && RankedAs(l[7], 7) && RankedAs(l[8], 8) && RankedAs(l[9], 9);
    assert RankedAs(l[10], 10);
    forall i | 0 <= i < |l| ensures RankedAs(l[i], i) {
      if i < 5 {
        assert i == 0 || i == 1 || i == 2 || i == 3 || i == 4;
      } else {
        assert i == 5 || i == 6 || i == 7 || i == 8 || i == 9 || i == 10;
      }
    }
  }

  // ---------------------------------------------------------------------------
  // The rendered sections

  /** The pieces a rendering is made of, with the two hash-map sections named. */
  lemma RenderingPieces(e: Entry, s: ReceiptState) returns (st: seq<Element>, dr: seq<Element>)
    requires IsRenderingOf(e, s)
    ensures |s.entry.children| <= |e.children| && e.children[..|s.entry.children|] == s.entry.children
    ensures ListsLinks(st, RelStatement, s.statements)
    ensures ListsLinks(dr, RelDerivedResource, s.derivedResources)
    ensures Added(e, s) == Sections(s, st, dr) == Concat(SectionList(s, st, dr))
    ensures Stratified(SectionList(s, st, dr))
  {
    st, dr :| && ListsLinks(st, RelStatement, s.statements)
              && ListsLinks(dr, RelDerivedResource, s.derivedResources)
              && e.children == s.entry.children + Sections(s, st, dr);
    SectionsAsList(s, st, dr);
    ListedLinksRanked(st, RelStatement, s.statements);
    ListedLinksRanked(dr, RelDerivedResource, s.derivedResources);
    SectionListStratified(s, st, dr);
  }

  /**
   * Section by section, the rendered additions are exactly: the edit link, the
   * sword-edit link, the media-feed link, the edit-media link (each only when
   * set), one packaging extension per format in list order, one statement link
   * per statement URI with its type, the treatment, the verbose description,
   * the splash link, the original-deposit link (each only when set), and one
   * derived-resource link per derived resource. Nothing else is added.
   */
  lemma RenderedSections(e: Entry, s: ReceiptState)
    requires IsRenderingOf(e, s)
    ensures |s.entry.children| <= |e.children| && e.children[..|s.entry.children|] == s.entry.children
    ensures Group(Added(e, s), 0) == EditPart(s)
    ensures Group(Added(e, s), 1) == SwordEditPart(s)
    ensures Group(Added(e, s), 2) == MediaFeedPart(s)
    ensures Group(Added(e, s), 3) == EditMediaPart(s)
    ensures Group(Added(e, s), 4) == PackagingElements(s.packagingFormats)
    ensures ListsLinks(Group(Added(e, s), 5), RelStatement, s.statements)
    ensures Group(Added(e, s), 6) == TreatmentPart(s)
    ensures Group(Added(e, s), 7) == VerboseDescriptionPart(s)
    ensures Group(Added(e, s), 8) == SplashPart(s)
    ensures Group(Added(e, s), 9) == OriginalDepositPart(s)
    ensures ListsLinks(Group(Added(e, s), 10), RelDerivedResource, s.derivedResources)
    ensures forall k :: k > 10 ==> Group(Added(e, s), k) == []
  {
    var st, dr := RenderingPieces(e, s);
    var l := SectionList(s, st, dr);
    GroupOfConcat(l, 0);
    GroupOfConcat(l, 1);
    GroupOfConcat(l, 2);
    GroupOfConcat(l, 3);
    GroupOfConcat(l, 4);
    GroupOfConcat(l, 5);
    GroupOfConcat(l, 6);
    GroupOfConcat(l, 7);
    GroupOfConcat(l, 8);
    GroupOfConcat(l, 9);
    GroupOfConcat(l, 10);
    forall k: nat | k > 10 ensures Group(Added(e, s), k) == [] {
      GroupOfConcat(l, k);
    }
  }

  /** The rendered additions follow the fixed section order. */
  lemma RenderedInOrder(e: Entry, s: ReceiptState)
    requires IsRenderingOf(e, s)
    ensures InOrder(Added(e, s))
  {
    var st, dr := RenderingPieces(e, s);
    ConcatInOrder(SectionList(s, st, dr));
  }

  /**
   * The entry's identity is the edit IRI when there is one; an edit link is
   * added exactly when the edit IRI is set, and it comes first.
   */
  lemma RenderedIdentity(e: Entry, s: ReceiptState)
    requires IsRenderingOf(e, s)
    ensures s.editIRI.Some? ==> e.id == s.editIRI
    ensures s.editIRI.None? ==> e.id == s.entry.id
    ensures |s.entry.children| <= |e.children|
    ensures (exists i :: 0 <= i < |Added(e, s)| && Rank(Added(e, s)[i]) == 0) <==> s.editIRI.Some?
    ensures s.editIRI.Some? ==> Added(e, s)[0] == Link(s.editIRI.value, RelEdit, None)
  {
    RenderedSections(e, s);
    RenderedInOrder(e, s);
    var a := Added(e, s);
    if i :| 0 <= i < |a| && Rank(a[i]) == 0 {
      GroupHas(a, i);
    }
    if s.editIRI.Some? {
      assert Group(a, 0)[0] in a;
      assert |a| > 0 && Rank(a[0]) == 0;
      GroupHas(a, 0);
    }
  }

  // ---------------------------------------------------------------------------
  // Setters and what the rendering shows of them

  lemma {:induction false} PackagingElementsAppend(formats: seq<string>, f: string)
    ensures PackagingElements(formats + [f]) == PackagingElements(formats) + [Ext(PackagingExt, f)]
  {
    if formats != [] {
      assert (formats + [f])[1..] == formats[1..] + [f];
      PackagingElementsAppend(formats[1..], f);
    }
  }

  /** After addPackaging, the new format is the last packaging extension rendered. */
  lemma AddPackagingRendersLast(e: Entry, s: ReceiptState, f: string)
    requires IsRenderingOf(e, s.WithPackaging(f))
    ensures |s.entry.children| <= |e.children|
    ensures Group(Added(e, s), 4) == PackagingElements(s.packagingFormats) + [Ext(PackagingExt, f)]
  {
    RenderedSections(e, s.WithPackaging(f));
    PackagingElementsAppend(s.packagingFormats, f);
  }

  /**
   * After setStatementURI(t, u) the rendering holds exactly one statement link
   * for `u`, typed `t`, and one link per distinct statement URI.
   */
  lemma StatementRenderedOnce(e: Entry, s: ReceiptState, t: Option<string>, u: string)
    requires IsRenderingOf(e, s.WithStatement(t, u))
    ensures |s.entry.children| <= |e.children|
    ensures |Group(Added(e, s), 5)| == |s.statements.Keys + {u}|
    ensures exists i :: 0 <= i < |Group(Added(e, s), 5)| && Group(Added(e, s), 5)[i] == Link(u, RelStatement, t)
    ensures forall i, j ::
              (0 <= i < |Group(Added(e, s), 5)| && 0 <= j < |Group(Added(e, s), 5)|
               && Group(Added(e, s), 5)[i].Link? && Group(Added(e, s), 5)[i].href == u
               && Group(Added(e, s), 5)[j].Link? && Group(Added(e, s), 5)[j].href == u) ==> i == j
  {
    var s' := s.WithStatement(t, u);
    assert s'.entry == s.entry;
    StatementSection(e, s');
    assert Added(e, s) == Added(e, s');
    ListedOnce(Group(Added(e, s), 5), RelStatement, s'.statements, u);
  }

  /** A listing holds exactly one link per key, carrying that key's type. */
  lemma ListedOnce(g: seq<Element>, rel: Rel, m: map<string, Option<string>>, u: string)
    requires ListsLinks(g, rel, m) && u in m
    ensures |g| == |m.Keys|
    ensures exists i :: 0 <= i < |g| && g[i] == Link(u, rel, m[u])
    ensures forall i, j ::
              (0 <= i < |g| && 0 <= j < |g| && g[i].Link? && g[i].href == u && g[j].Link? && g[j].href == u) ==> i == j
  {
    var i :| 0 <= i < |g| && g[i].href == u;
    assert g[i] == Link(u, rel, m[u]);
  }

  lemma StatementSection(e: Entry, s: ReceiptState)
    requires IsRenderingOf(e, s)
    ensures |s.entry.children| <= |e.children|
    ensures ListsLinks(Group(Added(e, s), 5), RelStatement, s.statements)
  {
    var st, dr := RenderingPieces(e, s);
    SectionOf(SectionList(s, st, dr), 5, st);
  }

  /** A stratified section is found again by grouping the whole rendering. */
  lemma SectionOf(l: seq<seq<Element>>, k: nat, g: seq<Element>)
    requires Stratified(l) && k < |l| && l[k] == g
    ensures Group(Concat(l), k) == g
  {
    GroupOfConcat(l, k);
  }

  /** With no explicit location, getLocation follows setEditIRI. */
  lemma LocationFollowsEditIRI(s: ReceiptState, x: Option<string>)
    requires s.location.None?
    ensures s.WithEditIRI(x).Location() == x
  {
  }

  /** Both IRIs set or both unset: kept by the setters when given a non-null IRI. */
  ghost predicate EditPaired(s: ReceiptState) {
    s.editIRI.Some? <==> s.seIRI.Some?
  }

  lemma SettersKeepEditPaired(s: ReceiptState, x: string)
    requires EditPaired(s)
    ensures EditPaired(s.WithEditIRI(Some(x)))
    ensures EditPaired(s.WithSwordEditIRI(Some(x)))
  {
  }

  /** setEditIRI(null) after the SE-IRI is set leaves the two apart. */
  lemma NullEditIRIUnpairs(s: ReceiptState)
    requires s.seIRI.Some?
    ensures !EditPaired(s.WithEditIRI(None))
  {
  }

  /** Setting both IRIs explicitly gives the same receipt in either order, and neither is overwritten. */
  lemma ExplicitIRIsCommute(s: ReceiptState, a: string, b: string)
    requires s.editIRI.None? && s.seIRI.None?
    ensures s.WithEditIRI(Some(a)).WithSwordEditIRI(Some(b)) == s.WithSwordEditIRI(Some(b)).WithEditIRI(Some(a))
    ensures s.WithEditIRI(Some(a)).WithSwordEditIRI(Some(b)).editIRI == Some(a)
    ensures s.WithEditIRI(Some(a)).WithSwordEditIRI(Some(b)).seIRI == Some(b)
  {
  }

  /** With only the edit IRI set, the rendered sword-edit link equals the edit link's target. */
  lemma SwordEditLinkFollowsEdit(e: Entry, s: ReceiptState, x: string)
    requires s.seIRI.None?
    requires IsRenderingOf(e, s.WithEditIRI(Some(x)))
    ensures e.id == Some(x)
    ensures |s.entry.children| <= |e.children|
    ensures Group(Added(e, s), 0) == [Link(x, RelEdit, None)]
    ensures Group(Added(e, s), 1) == [Link(x, RelSwordEdit, None)]
  {
    RenderedSections(e, s.WithEditIRI(Some(x)));
  }

  /** Symmetrically, with only the SE-IRI set, the edit link and identity follow it. */
  lemma EditLinkFollowsSwordEdit(e: Entry, s: ReceiptState, x: string)
    requires s.editIRI.None?
    requires IsRenderingOf(e, s.WithSwordEditIRI(Some(x)))
    ensures e.id == Some(x)
    ensures |s.entry.children| <= |e.children|
    ensures Group(Added(e, s), 0) == [Link(x, RelEdit, None)]
    ensures Group(Added(e, s), 1) == [Link(x, RelSwordEdit, None)]
  {
    RenderedSections(e, s.WithSwordEditIRI(Some(x)));
  }

  /** A new receipt renders to the default treatment and nothing else. */
  lemma FreshRendersDefaultTreatment(e: Entry)
    requires IsRenderingOf(e, Fresh())
    ensures e == Entry(None, None, [Ext(TreatmentExt, DefaultTreatment)])
  {
    var st, dr := RenderingPieces(e, Fresh());
    assert |st| == 0 && |dr| == 0;
  }

  /**
   * Two renderings of the same receipt agree everywhere except, possibly, the
   * order of links within the statement and derived-resource sections.
   */
  lemma RenderingsAgree(e1: Entry, e2: Entry, s: ReceiptState)
    requires IsRenderingOf(e1, s) && IsRenderingOf(e2, s)
    ensures e1.id == e2.id && e1.content == e2.content
    ensures |s.entry.children| <= |e1.children| && |s.entry.children| <= |e2.children|
    ensures forall k :: k != 5 && k != 10 ==> Group(Added(e1, s), k) == Group(Added(e2, s), k)
  {
    RenderedSections(e1, s);
    RenderedSections(e2, s);
    forall k: nat | k != 5 && k != 10 ensures Group(Added(e1, s), k) == Group(Added(e2, s), k) {
      if k < 5 {
        assert k == 0 || k == 1 || k == 2 || k == 3 || k == 4;
      } else if k < 10 {
        assert k == 6 || k == 7 || k == 8 || k == 9;
      }
    }
  }

  /** Two renderings of the same receipt hold the same elements, as many of them. */
  lemma RenderingsHaveSameElements(e1: Entry, e2: Entry, s: ReceiptState)
    requires IsRenderingOf(e1, s) && IsRenderingOf(e2, s)
    ensures |e1.children| == |e2.children|
    ensures forall x :: x in e1.children <==> x in e2.children
  {
    var st1, dr1 := RenderingPieces(e1, s);
    var st2, dr2 := RenderingPieces(e2, s);
    SameListing(st1, st2, RelStatement, s.statements);
    SameListing(dr1, dr2, RelDerivedResource, s.derivedResources);
    SectionsLength(s, st1, dr1);
    SectionsLength(s, st2, dr2);
    forall x ensures x in e1.children <==> x in e2.children {
      SectionsMembers(s, st1, dr1, x);
      SectionsMembers(s, st2, dr2, x);
      assert e1.children == s.entry.children + Added(e1, s);
      assert e2.children == s.entry.children + Added(e2, s);
    }
  }

  lemma SectionsLength(s: ReceiptState, st: seq<Element>, dr: seq<Element>)
    ensures |Sections(s, st, dr)| == |LeadingLinks(s)| + |s.packagingFormats| + |st| + |Descriptions(s)| + |dr|
  {
  }

  lemma SectionsMembers(s: ReceiptState, st: seq<Element>, dr: seq<Element>, x: Element)
    ensures x in Sections(s, st, dr) <==>
              x in LeadingLinks(s) || x in PackagingElements(s.packagingFormats) || x in st
              || x in Descriptions(s) || x in dr
  {
  }

  lemma SameListing(g1: seq<Element>, g2: seq<Element>, rel: Rel, m: map<string, Option<string>>)
    requires ListsLinks(g1, rel, m) && ListsLinks(g2, rel, m)
    ensures |g1| == |g2|
    ensures forall x :: x in g1 <==> x in g2
  {
    forall x | x in g1 ensures x in g2 {
      var i :| 0 <= i < |g1| && g1[i] == x;
      var j :| 0 <= j < |g2| && g2[j].href == x.href;
    }
    forall x | x in g2 ensures x in g1 {
      var i :| 0 <= i < |g2| && g2[i] == x;
      var j :| 0 <= j < |g1| && g1[j].href == x.href;
    }
  }
}
