/**
 The rename model's own values: documents, byte-offset edits located in a
 document, the renamer's output, and the collaborators whose code is not
 part of this model (the renamer, the position/range/edit converters and the
 grouping of located edits per document), each given as a function value.
 */
module Model {
  import opened Wrappers
  import Protocol

  /** A document as the locator returns it: its URI and its current text. */
  datatype TextDocument = TextDocument(uri: string, text: string)

  /** A span of a document's bytes. */
  datatype ByteOffsetRange = ByteOffsetRange(start: nat, end: nat)

  /** Replace `length` bytes from byte offset `start` by `replacement`. */
  datatype TextEdit = TextEdit(start: nat, length: nat, replacement: string)

  /** One text edit together with the URI of the document it applies to. */
  datatype LocatedTextEdit = LocatedTextEdit(documentUri: string, textEdit: TextEdit)

  /** All the text edits for one document: one entry of the grouped edits map. */
  datatype LocatedTextEdits = LocatedTextEdits(documentUri: string, textEdits: seq<TextEdit>)

  /** The domain failure a renamer raises when the rename cannot be done. */
  datatype CouldNotRename = CouldNotRename(message: string)

  /**
   What enumerating a renamer's lazy edit sequence yields: the edits in the
   order they are produced and, when the sequence ends by raising
   `CouldNotRename` instead of finishing, that failure.
   */
  datatype RenameResults = RenameResults(edits: seq<LocatedTextEdit>, failure: Option<CouldNotRename>)

  /**
   The renamer: the range that a rename at a byte offset would replace (if
   any), and the edits renaming the symbol at that offset to a new name.
   */
  datatype Renamer = Renamer(
    getRenameRange: (TextDocument, nat) -> Option<ByteOffsetRange>,
    rename: (TextDocument, nat, string) -> RenameResults)

  /**
   The conversions between protocol coordinates and byte offsets, each
   computed against the text of the document it is given.
   */
  datatype Converters = Converters(
    positionToByteOffset: (Protocol.Position, string) -> nat,
    toLspRange: (ByteOffsetRange, string) -> Protocol.Range,
    toLspTextEdits: (seq<TextEdit>, string) -> seq<Protocol.TextEdit>)

  /** Building the located edits map from a list of edits and listing its entries. */
  type Grouping = seq<LocatedTextEdit> -> seq<LocatedTextEdits>
}
