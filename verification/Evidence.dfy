/** Role-local Evidence: the citations and numeric tokens an Analyst may rely on. */
module Evidence {
  import opened Sequences
  import opened Scanner

  datatype Source = Source(documentId: string, excerptRef: string, provider: string, url: string)

  /** The identity under which citations are compared: document and excerpt. */
  type Key = (string, string)

  function CitationKey(source: Source): Key {
    (source.documentId, source.excerptRef)
  }

  datatype Entry = Entry(id: string, source: Source, description: string, tokens: seq<string>)

  /** Structured and memory entries expose the literals of their description, then their timestamps. */
  function DescribedTokens(description: string, timestamps: seq<string>): seq<string> {
    Dedup(Literals(description) + timestamps)
  }

  function StructuredEntry(id: string, source: Source, description: string, timestamps: seq<string>): Entry {
    Entry(id, source, description, DescribedTokens(description, timestamps))
  }

  /** A document is described with its title, but exposes the literals of its text alone. */
  function DocumentEntry(id: string, source: Source, title: string, text: string): Entry {
    Entry(id, source, title + ": " + text, Literals(text))
  }

  predicate DescriptionCovered(e: Entry) {
    forall literal :: literal in Literals(e.description) ==> literal in e.tokens
  }

  lemma StructuredIsCovered(id: string, source: Source, description: string, timestamps: seq<string>)
    ensures DescriptionCovered(StructuredEntry(id, source, description, timestamps))
  {
    DedupElements(Literals(description) + timestamps);
  }
}
