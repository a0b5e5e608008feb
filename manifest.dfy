/** The parsed manifest as the XML parser delivers it: every element's
    children are grouped by tag name into lists, and its attributes are a
    property map. A child list the element does not have is the empty list. */
module Manifest {
  import opened Common

  type Attrs = Props

  /** One `<filename>`, `<folder>` or `<language>` child: bare text, or text
      (the parser's `_`) together with the element's attributes (its `$`).
      `Tagged` stands for an element with at least one attribute; the parser
      gives `$` to no other element. */
  datatype Entry = Plain(text: string) | Tagged(text: string, attrs: Attrs)

  /** A `<files>`, `<languages>` or `<media>` element. An element without
      attributes or children (parsed as a bare string) is a Section with
      none of either. */
  datatype Section = Section(attrs: Attrs, filename: seq<Entry>, folder: seq<Entry>, language: seq<Entry>)

  /** An `<administration>` element and the sections the packager reads from it. */
  datatype Administration = Administration(files: seq<Section>, languages: seq<Section>)

  /** The `<extension>` root element and the sections the packager reads from it. */
  datatype Extension = Extension(
    files: seq<Section>,
    languages: seq<Section>,
    media: seq<Section>,
    administration: seq<Administration>)

  /** The parser's result: the root element, if the document has one named
      `extension` that is not empty. The parser turns an empty `<extension/>`
      into the empty string, which the packager treats as a missing element,
      so such a document is `Document(None)`. */
  datatype Document = Document(extension: Option<Extension>)
}
