/**
 * The artifact store: every stage of the pipeline caches its output as a file,
 * so the file system is a map from a key (project or global folder, stage
 * folder, file name) to the file's contents. JSON artifacts are stored as text
 * and read back through the abstract parser.
 */
module Store {
  import opened Text
  import Json

  /** Files under a project's DropZone folder, or under a folder shared by all projects. */
  datatype Scope = Global | Project(slug: string)

  /**
   * The stage folders: DropZone's "raw", the "uploads" folder of the upload
   * routes, and the cleaned, atoms, annotated and graph(s) folders.
   */
  datatype Stage = Raw | Uploads | Cleaned | Atoms | Annotated | Graphs

  datatype Key = Key(scope: Scope, stage: Stage, name: string)

  /** What an endpoint answers: a JSON body, a plain-text body, or an HTTP error status. */
  datatype Response = Ok(body: Json.Value) | PlainText(content: string) | HttpError(code: nat)

  /** `filename.lower().endswith(".pdf")`. */
  predicate IsPdfName(filename: string)
  {
    EndsWith(Lower(filename), ".pdf")
  }

  /** `filename.replace(".pdf", ext)`: the artifact name a stage derives from an upload name. */
  function Renamed(filename: string, ext: string): string
  {
    Replace(filename, ".pdf", ext)
  }

  /** The disk: the contents of every file that exists. */
  class Disk {
    var files: map<Key, string>

    constructor (initial: map<Key, string>)
      ensures files == initial
    {
      files := initial;
    }
  }
}
