/**
 * The records the knowledge base stores and returns. In the source these are
 * dictionaries; here each has the fixed set of keys the code reads and writes.
 */
module Records {
  import opened Wrappers

  /**
   * A support article in `knowledge_items`. The five seeded articles carry no
   * "id" key; an article stored by `add_document` carries "doc_<n>".
   */
  datatype Item = Item(id: Option<string>, title: string, content: string, category: string, tags: seq<string>)

  /** The "metadata" dictionary of a search hit. */
  datatype Metadata = Metadata(title: string, category: string, tags: seq<string>)

  /** One search hit: previewed content, the article's metadata, and its relevance score. */
  datatype Hit = Hit(content: string, metadata: Metadata, score: real)

  /**
   * The metadata of a retrieved document as the reply code reads it: keys that
   * may be missing are optional.
   */
  datatype DocMeta = DocMeta(title: Option<string>, category: Option<string>, tags: Option<seq<string>>)

  /** A retrieved document: `page_content` and `metadata`. */
  datatype Document = Document(pageContent: string, metadata: DocMeta)
}
