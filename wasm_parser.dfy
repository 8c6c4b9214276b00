/**
 * The shapes the foreign `wasmparser` crate yields when it walks a module
 * binary: a sequence of payloads, each parsed or failed. Only the payload kinds
 * the system inspects are distinguished.
 */
module WasmParser {
  import opened Wrappers
  import opened Share

  datatype ExternalKind = Func | Table | Memory | Global | Tag

  datatype Export = Export(name: string, kind: ExternalKind)

  datatype Payload =
    | CustomSection(name: string, data: Bytes)
    | ExportSection(exports: seq<Result<Export, string>>)
    | OtherPayload

  /** What `Parser::parse_all` produces for a binary. */
  type Parsed = seq<Result<Payload, string>>
}
