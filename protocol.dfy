/**
 * The parts of the Babelfish protocol messages that the server reads or
 * builds: a parse request and the response it gets back.
 */
module Protocol {
  import opened Wrappers

  /** Outcome status carried by every response. */
  datatype Status = Ok | Error | Fatal

  /** A node of a universal syntax tree, as returned by a driver. */
  datatype Node = Node(internalType: string, token: string, children: seq<Node>)

  /** What a caller asks for: parse `content`, written in `language` (may be empty), stored as `filename`. */
  datatype ParseUASTRequest = ParseUASTRequest(filename: string, language: string, content: string)

  /** What a caller gets back; `uast` is `None` when no tree was produced. */
  datatype ParseUASTResponse = ParseUASTResponse(status: Status, errors: seq<string>, uast: Option<Node>)
}
