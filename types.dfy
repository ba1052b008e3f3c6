/**
 * Values shared by the rebuild task: the documentation pages the manifest
 * hands out, the search documents built from them, and the path-boost rules
 * read from the `DocumentationSearch.boost_by_path` configuration.
 */
module DocsTypes {

  /**
   * The documentation set a page belongs to. `asString` is the string the entity
   * converts to when it is stored as the `Entity` keyword.
   */
  datatype Entity = Entity(asString: string, version: string, language: string)

  /** One page of the manifest, as the rebuild reads it. */
  datatype Page = Page(
    title: string,
    breadcrumbTitle: string,
    html: string,
    entity: Entity,
    link: string,
    relativePath: string)

  /** Lucene field flavours: tokenized full text, or an exact-match keyword. */
  datatype FieldKind = Text | Keyword

  datatype Field = Field(name: string, value: string, kind: FieldKind, boost: real)

  /**
   * A Lucene document. Its fields are kept by name, as the engine's
   * `addField` does; `boost` is the document-level boost.
   */
  datatype Document = Document(fields: map<string, Field>, boost: real)

  /** One entry of `boost_by_path`: a path regular expression and its boost. */
  datatype BoostRule = BoostRule(pattern: string, boost: real)

  /** The engine's default boost, for fields and for documents. */
  const DefaultBoost: real := 1.0
}
