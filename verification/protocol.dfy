/**
 The Language Server Protocol values that the rename handler receives and
 returns: request parameters, ranges in line/character coordinates, text
 edits, workspace edits and the server's capability record.
 */
module Protocol {
  import opened Wrappers

  /** The method name of the prepare-rename request. */
  const PrepareRenameMethod: string := "textDocument/prepareRename"
  /** The method name of the rename request. */
  const RenameMethod: string := "textDocument/rename"

  datatype Position = Position(line: nat, character: nat)

  datatype Range = Range(start: Position, end: Position)

  datatype TextEdit = TextEdit(range: Range, newText: string)

  datatype TextDocumentIdentifier = TextDocumentIdentifier(uri: string)

  datatype VersionedTextDocumentIdentifier = VersionedTextDocumentIdentifier(uri: string, version: int)

  /** The edits to one document, stamped with the version they apply to. */
  datatype TextDocumentEdit = TextDocumentEdit(textDocument: VersionedTextDocumentIdentifier, edits: seq<TextEdit>)

  /** A workspace-wide edit: the optional per-URI `changes` and the ordered per-document batches. */
  datatype WorkspaceEdit = WorkspaceEdit(changes: Option<map<string, seq<TextEdit>>>, documentChanges: seq<TextDocumentEdit>)

  datatype PrepareRenameParams = PrepareRenameParams(textDocument: TextDocumentIdentifier, position: Position)

  datatype RenameParams = RenameParams(textDocument: TextDocumentIdentifier, position: Position, newName: string)

  datatype RenameOptions = RenameOptions(prepareProvider: bool)

  /**
   The server's capability record. Only the rename provider matters here;
   `otherProviders` stands for every other capability the record holds.
   */
  datatype ServerCapabilities = ServerCapabilities(renameProvider: Option<RenameOptions>, otherProviders: set<string>)
}
