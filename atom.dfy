/**
 * An abstract Atom entry (RFC 4287), as far as the deposit receipt needs one.
 * The XML toolkit that builds and serialises real entries is not modelled:
 * an entry is an optional identity, an optional content reference and the
 * ordered sequence of child elements added to it.
 */
module Atom {
  import opened Wrappers

  /** The feed media type given to the status-feed link and to Atom statements. */
  const AtomFeedType: string := "application/atom+xml;type=feed"

  /**
   * Link relations. The first three are registered relations of section
   * 4.2.7.2 of RFC 4287 ("edit" and "edit-media" come from RFC 5023); the
   * others are the SWORD relation URIs of the server's URI registry, kept
   * symbolic here.
   */
  datatype Rel =
    | RelEdit
    | RelEditMedia
    | RelAlternate
    | RelSwordEdit
    | RelStatement
    | RelOriginalDeposit
    | RelDerivedResource

  /** Names of the simple extension elements an entry can carry. */
  datatype ExtName =
    | PackagingExt
    | TreatmentExt
    | VerboseDescriptionExt
    | GeneratorExt
    | DublinCore(term: string)
    | Named(namespace: string, local: string)

  datatype Element =
    | Link(href: string, rel: Rel, mime: Option<string>)
    | Ext(name: ExtName, value: string)

  datatype Content = Content(href: string, mediaType: string)

  datatype Entry = Entry(id: Option<string>, content: Option<Content>, children: seq<Element>)

  /** A new, empty entry. */
  const EmptyEntry: Entry := Entry(None, None, [])
}
