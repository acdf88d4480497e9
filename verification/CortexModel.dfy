/** The document model the CORTEX reader and writer share. */
module CortexModel {
  import opened Text
  import opened Attrs

  /** An entry holds an attrs map or a free-text body, never both. */
  datatype Payload = Pairs(attrs: AttrMap) | Body(text: string)
  datatype Entry = Entry(sigil: string, name: string, payload: Payload)
  datatype Section = Section(id: string, title: Option<string>, comments: seq<string>, entries: seq<Entry>)
  datatype Document = Document(header: string, comments: seq<string>, symbols: seq<Entry>, sections: seq<Section>)

  /** Keys that mark a generated glossary declaration. */
  predicate IsDeclaration(attrs: AttrMap) {
    HasKey(attrs, "type") && HasKey(attrs, "weight") && HasKey(attrs, "focus") && HasKey(attrs, "desc")
  }
}
