/**
 The rename request handler of the language server: it answers the
 prepare-rename and rename requests by driving the renamer, turns a
 `CouldNotRename` failure into an error message for the user, and packages
 the renamer's edits as one versioned batch per document.
 */
module Handler {
  import opened Wrappers
  import P = Protocol
  import opened Model
  import Client

  /** `$count++ === 10`: the value the result counter has when the delay fires. */
  const DelayAtCount: nat := 10

  /** The delays a run that consumes `n` results performs, given as the counter values at which they fire. */
  ghost function DelaysFor(n: nat): (delays: seq<nat>)
    ensures |delays| <= 1
    ensures n <= DelayAtCount <==> delays == []
    ensures forall k :: 0 <= k < |delays| ==> delays[k] == DelayAtCount
  {
    if n > DelayAtCount then [DelayAtCount] else []
  }

  class RenameHandler {
    /** The session workspace: the version of every document open in it. */
    const workspace: map<string, int>
    /** The text document locator: the current document behind a URI. */
    const documentLocator: string -> TextDocument
    const renamer: Renamer
    /** The client's window, where failures are reported. */
    const clientApi: Client.ClientWindow
    const converters: Converters
    /** The located edits map: grouping edits per document and listing the groups. */
    const groupEdits: Grouping

    constructor (workspace: map<string, int>, documentLocator: string -> TextDocument, renamer: Renamer,
                 clientApi: Client.ClientWindow, converters: Converters, groupEdits: Grouping)
      ensures this.workspace == workspace && this.documentLocator == documentLocator
      ensures this.renamer == renamer && this.clientApi == clientApi
      ensures this.converters == converters && this.groupEdits == groupEdits
    {
      this.workspace := workspace;
      this.documentLocator := documentLocator;
      this.renamer := renamer;
      this.clientApi := clientApi;
      this.converters := converters;
      this.groupEdits := groupEdits;
    }

    /** The protocol methods this handler serves, each mapped to the operation that serves it. */
    static function Methods(): (methods: map<string, string>)
      ensures methods.Keys == {P.PrepareRenameMethod, P.RenameMethod}
      ensures methods[P.PrepareRenameMethod] == "prepareRename"
      ensures methods[P.RenameMethod] == "rename"
    {
      map[P.PrepareRenameMethod := "prepareRename", P.RenameMethod := "rename"]
    }

    /** Advertise rename support, with prepare support, and leave the other capabilities alone. */
    static function RegisterCapabilities(capabilities: P.ServerCapabilities): (registered: P.ServerCapabilities)
      ensures registered.renameProvider == Some(P.RenameOptions(true))
      ensures registered.otherProviders == capabilities.otherProviders
    {
      capabilities.(renameProvider := Some(P.RenameOptions(true)))
    }

    /** The version to stamp on edits to `uri`: the workspace's version when it is open there, 0 otherwise. */
    function GetDocumentVersion(uri: string): (version: int)
      ensures uri in workspace ==> version == workspace[uri]
      ensures uri !in workspace ==> version == 0
    {
      if uri in workspace then workspace[uri] else 0
    }

    /**
     The range a rename at the cursor would replace, in protocol coordinates,
     or None when the renamer reports none. The byte offset of the cursor and
     the conversion of the range back both use the one text fetched for the
     cursor's document.
     */
    function PrepareRename(params: P.PrepareRenameParams): (range: Option<P.Range>)
      ensures var document := documentLocator(params.textDocument.uri);
              var byteRange := renamer.getRenameRange(document, converters.positionToByteOffset(params.position, document.text));
              && (range == None <==> byteRange == None)
              && (range != None ==> range.value == converters.toLspRange(byteRange.value, document.text))
    {
      var document := documentLocator(params.textDocument.uri);
      var byteRange := renamer.getRenameRange(document, converters.positionToByteOffset(params.position, document.text));
      if byteRange == None then None else Some(converters.toLspRange(byteRange.value, document.text))
    }

    /** What the renamer produces for a rename request, against the text fetched for the cursor's document. */
    function RenameResultsFor(params: P.RenameParams): RenameResults
    {
      var document := documentLocator(params.textDocument.uri);
      renamer.rename(document, converters.positionToByteOffset(params.position, document.text), params.newName)
    }

    /**
     One versioned document edit per entry, in the entries' order: each is
     stamped with its entry's URI and that URI's version, and its edits are
     converted against the text of that entry's own document.
     */
    function DocumentEdits(entries: seq<LocatedTextEdits>): (edits: seq<P.TextDocumentEdit>)
      ensures |edits| == |entries|
      ensures forall k :: 0 <= k < |entries| ==>
                && edits[k].textDocument.uri == entries[k].documentUri
                && edits[k].textDocument.version == GetDocumentVersion(entries[k].documentUri)
                && edits[k].edits == converters.toLspTextEdits(entries[k].textEdits, documentLocator(entries[k].documentUri).text)
    {
      if entries == [] then []
      else
        var uri := entries[0].documentUri;
        [P.TextDocumentEdit(P.VersionedTextDocumentIdentifier(uri, GetDocumentVersion(uri)),
                            converters.toLspTextEdits(entries[0].textEdits, documentLocator(uri).text))]
        + DocumentEdits(entries[1..])
    }

    /** The workspace edit for a list of located edits: no `changes`, and one batch per group of the edits. */
    function WorkspaceEditFor(locatedEdits: seq<LocatedTextEdit>): (edit: P.WorkspaceEdit)
      ensures edit.changes == None
      ensures |edit.documentChanges| == |groupEdits(locatedEdits)|
    {
      P.WorkspaceEdit(None, DocumentEdits(groupEdits(locatedEdits)))
    }

    /** Build the workspace edit for the accumulated edits, one document at a time. */
    method ResultToWorkspaceEdit(locatedEdits: seq<LocatedTextEdit>) returns (edit: P.WorkspaceEdit)
      ensures edit == WorkspaceEditFor(locatedEdits)
    {
      var documentEdits: seq<P.TextDocumentEdit> := [];
      var entries := groupEdits(locatedEdits);
      for i := 0 to |entries|
        invariant |documentEdits| == i
        invariant forall k :: 0 <= k < i ==> documentEdits[k] == DocumentEdits(entries)[k]
      {
        var result := entries[i];
        var version := GetDocumentVersion(result.documentUri);
        documentEdits := documentEdits + [P.TextDocumentEdit(
          P.VersionedTextDocumentIdentifier(result.documentUri, version),
          converters.toLspTextEdits(result.textEdits, documentLocator(result.documentUri).text))];
      }
      edit := P.WorkspaceEdit(None, documentEdits);
    }

    /**
     Rename the symbol at the cursor. The renamer's edits are consumed one by
     one into a list, in the order produced; the scheduler delay happens once,
     when the eleventh edit is consumed (if there is one), and changes nothing
     in this model, whose collaborators are one snapshot for the whole
     request. If the renamer raises `CouldNotRename`, its message goes to the
     client once and the answer is an empty workspace edit; otherwise the
     answer is the workspace edit of exactly the produced edits and the client
     hears nothing.
     */
    method Rename(params: P.RenameParams) returns (edit: P.WorkspaceEdit, ghost delayedAt: seq<nat>)
      modifies clientApi
      ensures var results := RenameResultsFor(params);
              match results.failure
              case Some(failure) =>
                && edit == P.WorkspaceEdit(None, [])
                && clientApi.errors == old(clientApi.errors) + [failure.message]
              case None =>
                && edit == WorkspaceEditFor(results.edits)
                && clientApi.errors == old(clientApi.errors)
      ensures delayedAt == DelaysFor(|RenameResultsFor(params).edits|)
    {
      var locatedEdits: seq<LocatedTextEdit> := [];
      var document := documentLocator(params.textDocument.uri);
      var count: nat := 0;
      delayedAt := [];
      var results := renamer.rename(document, converters.positionToByteOffset(params.position, document.text), params.newName);
      for i := 0 to |results.edits|
        invariant count == i
        invariant locatedEdits == results.edits[..i]
        invariant delayedAt == DelaysFor(i)
      {
        if count == DelayAtCount {
          // the scheduler delay: the request yields once, here, and resumes unchanged
          delayedAt := delayedAt + [count];
        }
        count := count + 1;
        locatedEdits := locatedEdits + [results.edits[i]];
      }
      if results.failure != None {
        clientApi.ShowError(results.failure.value.message);
        return P.WorkspaceEdit(None, []), delayedAt;
      }
      assert locatedEdits == results.edits;
      edit := ResultToWorkspaceEdit(locatedEdits);
    }
  }

  /** No two entries of the grouped edits name the same document. */
  ghost predicate DistinctUris(entries: seq<LocatedTextEdits>)
  {
    forall i, j :: 0 <= i < j < |entries| ==> entries[i].documentUri != entries[j].documentUri
  }

  /**
   The document edits read a document's text only through the URIs of the
   entries: two handlers that agree on the converters, on the workspace and
   on the documents behind those URIs build the same edits, whatever the
   cursor's document or any other document holds.
   */
  lemma DocumentEditsReadOwnDocuments(h1: RenameHandler, h2: RenameHandler, entries: seq<LocatedTextEdits>)
    requires h1.converters == h2.converters && h1.workspace == h2.workspace
    requires forall k :: 0 <= k < |entries| ==> h1.documentLocator(entries[k].documentUri) == h2.documentLocator(entries[k].documentUri)
    ensures h1.DocumentEdits(entries) == h2.DocumentEdits(entries)
  {
  }

  /** When the grouping lists each document once, the workspace edit has one batch per document. */
  lemma OneBatchPerDocument(h: RenameHandler, locatedEdits: seq<LocatedTextEdit>)
    requires DistinctUris(h.groupEdits(locatedEdits))
    ensures var batches := h.WorkspaceEditFor(locatedEdits).documentChanges;
            forall i, j :: 0 <= i < j < |batches| ==> batches[i].textDocument.uri != batches[j].textDocument.uri
  {
  }
}
