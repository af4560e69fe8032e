# Rename handler of the PHP language server, modelled in Dafny

This project models the rename request handler of phpactor's language-server
rename extension (`RenameHandler`). The handler answers two Language Server
Protocol requests:

- `textDocument/prepareRename`: it fetches the cursor's document, converts the
  cursor position to a byte offset against that document's text, asks the
  renamer for the range a rename would replace, and returns that range in
  protocol coordinates (converted against the same text), or null when the
  renamer reports none.
- `textDocument/rename`: it asks the renamer for its lazy sequence of located
  text edits and consumes it into a list, pausing the request once on the
  scheduler when the eleventh edit is consumed, if there is one. If the
  renamer raises `CouldNotRename`, the handler shows the failure's message to
  the user as an error and answers an empty workspace edit, discarding
  whatever edits it had collected. Otherwise it groups the edits per document
  and answers one versioned document edit per group, in the groups' order.
  Each group is stamped with the document's version in the session workspace
  (0 when the document is not open). Its edits are converted against that
  document's own text, fetched by its URI.

It also declares which protocol methods it serves and registers the rename
capability with prepare support.

Layout:

- `wrappers.dfy` (`Wrappers`): the `Option` datatype used for nullable values.
- `protocol.dfy` (`Protocol`): the protocol values (positions, ranges, text
  edits, document edits, workspace edits, request parameters, capabilities)
  and the two method names.
- `model.dfy` (`Model`): documents, byte-offset edits, located edits, the
  grouped entries, `CouldNotRename`, and the collaborators whose code is not
  part of this model. These are the renamer, the three converters and the
  grouping of located edits per document, each given as a function value.
- `client.dfy` (`Client`): the client's window, an append-only log of error
  messages.
- `handler.dfy` (`Handler`): the `RenameHandler` class. Its collaborators are
  `const` fields, since the handler never reassigns them. `Rename` and
  `ResultToWorkspaceEdit` keep the source's loops. The other operations are
  functions.

The renamer's lazy sequence is modelled by `RenameResults`: the finite list
of edits it produces, in order, and the `CouldNotRename` failure, if any,
raised once those edits have been produced. A failure raised before any edit
is the case of an empty list. `RenameResultsFor` gives the output that
`Rename`'s contract is about: the renamer's output for the cursor's document,
as the locator returns it, at the byte offset of the cursor computed against
that document's text, for the requested new name. The workspace, the document
locator, the converters and the grouping are read-only inputs of the handler.

The scheduler delay is kept as the ghost out-parameter `delayedAt` of
`Rename`: the list of counter values at which the delay fired. The source's
test is `$count++ === 10`, which compares the counter before it is increased.
So the delay fires exactly once, when the eleventh edit is consumed, and never
when fewer than eleven edits are produced. It does not fire after every ten
edits, as a test such as `++$count % 10 === 0` would. The model follows the
code. In the model the delay changes nothing: the workspace, the documents and
the renamer's output are one snapshot for the whole request.

## Model

| member | source | states |
|---|---|---|
| `Handler.RenameHandler.Methods` | lib/LanguageServerRename/Handler/RenameHandler.php:65-71 | exactly two protocol methods are served: prepareRename by `prepareRename` and rename by `rename` |
| `Handler.RenameHandler.RegisterCapabilities` | lib/LanguageServerRename/Handler/RenameHandler.php:129-132 | the rename provider becomes rename options with prepare support true; the other capabilities are kept |
| `Handler.RenameHandler.GetDocumentVersion` | lib/LanguageServerRename/Handler/RenameHandler.php:158-161 | the workspace's stored version when the URI is open in it, 0 otherwise |
| `Handler.RenameHandler.PrepareRename` | lib/LanguageServerRename/Handler/RenameHandler.php:111-127 | null exactly when the renamer reports no range; otherwise the renamer's range converted against the same document text used to compute the cursor's byte offset |
| `Handler.RenameHandler.DocumentEdits` | lib/LanguageServerRename/Handler/RenameHandler.php:142-154 | one document edit per grouped entry, in the entries' order, each carrying the entry's URI, that URI's version, and the entry's edits converted against the text of that URI's own document |
| `Handler.RenameHandler.WorkspaceEditFor` | lib/LanguageServerRename/Handler/RenameHandler.php:137-156 | the workspace edit has null `changes` and as many document edits as the grouping has entries |
| `Handler.RenameHandler.ResultToWorkspaceEdit` | lib/LanguageServerRename/Handler/RenameHandler.php:137-156 | the loop builds exactly the workspace edit of the grouped edits (one versioned batch per entry, as `DocumentEdits` states) |
| `Handler.DelaysFor` | lib/LanguageServerRename/Handler/RenameHandler.php:92-94 | consuming n results delays at most once, at counter value 10 (the eleventh result), and not at all when n is at most 10 |
| `Handler.DocumentEditsReadOwnDocuments` | lib/LanguageServerRename/Handler/RenameHandler.php:149-152 | each document's edits are converted against that document's own text, fetched by its URI: handlers that agree on those documents (and on converters and workspace) build the same edits, whatever the cursor's document holds |
| `Handler.OneBatchPerDocument` | lib/LanguageServerRename/Handler/RenameHandler.php:140-155 | when the grouping lists each document once, no two batches of the workspace edit name the same document |
| `Handler.RenameHandler.Rename` | lib/LanguageServerRename/Handler/RenameHandler.php:76-107 | for the renamer's output `RenameResultsFor(params)` (the cursor's document fetched once, the cursor converted to a byte offset against its text, the new name): on `CouldNotRename`, an empty workspace edit and exactly one error message, the failure's, appended to the client's log; otherwise the workspace edit of exactly the produced edits, in production order, and no message; the delays are those of `DelaysFor` for the number of edits consumed |
| `Client.ClientWindow.ShowError` | lib/LanguageServerRename/Handler/RenameHandler.php:98-100 | the message is appended to the client's error log and nothing else changes |
| `Handler.RenameHandler.constructor` | lib/LanguageServerRename/Handler/RenameHandler.php:51-61 | the handler holds the collaborators it is given |

## Left out

- Promises and the cooperative scheduler (`Amp\call`, `delay(1)`): the handler's results are returned directly, and the delay is only recorded in a ghost out-parameter.
- The effect of other requests during the delay: the model takes the session workspace, the documents behind the locator and the renamer's output as one snapshot for the whole request. In the source, other requests run while the request is paused and may change them, so the versions and texts read after the pause (RenameHandler.php lines 143 and 151) may differ from the text the renamer's byte offsets were computed against, and the renamer's sequence resumes afterwards.
- Handler.RenameHandler.Rename: records the failure's message verbatim, while the source passes it to `sprintf` as the format string, which changes or rejects a message containing `%`.
- Parsing and normalising URIs (`TextDocumentUri::fromString`): URIs are plain strings, used as given.
- The converters between protocol positions and byte offsets (`PositionConverter`, `RangeConverter`, `TextEditConverter`): their code is not part of this model; they are function values the handler is given.
- The grouping of located edits per document (`LocatedTextEditsMap`): its code is not part of this model; it is a function value from the edit list to the list of (URI, edits) entries. So the model proves nothing about the order, distinctness or non-overlap of the groups.
- The renamers themselves (`ChainRenamer` and the concrete renamers): not part of this model; the renamer is a pair of function values.
- Exceptions other than `CouldNotRename` raised by the renamer: the handler catches only `CouldNotRename`, so anything else raised by `rename`, while its edits are enumerated, or by `getRenameRange` propagates out of the request with no message to the client and no edit; the model's renamer raises only `CouldNotRename`, and its `getRenameRange` is total.
- Failures of the document locator or the converters (a document that cannot be found): they propagate out of the handler in the source and are not modelled; the locator is total.
- The transport to the client (`ClientApi`): the client's window is only a log of the error messages shown.
- The dependency-injection wiring (lib/LanguageServerRename/LanguageServerRenameExtension.php): it holds no logic. It constructs the handler with three arguments although the constructor takes four; the model's constructor takes all collaborators.
- The `changes` field of the workspace edit is always null in the source and is always `None` here.
