/** How an OBS task chooses the object it hands to modelbox next, and which path it reports. */
module ObsSource {
  import opened Types

  /** A listed object, or the request's own path when nothing was listed. */
  datatype Source = Listed(path: Path) | Own

  /** MATask::FillObsInputInfo takes the last listed path. */
  function NextSource(paths: seq<Path>): Source {
    if paths == [] then Own else Listed(paths[|paths| - 1])
  }

  function RestPaths(paths: seq<Path>): seq<Path> {
    if paths == [] then [] else paths[..|paths| - 1]
  }

  /** The path written in the input data. */
  function InputPath(source: Source, own: Path): Path {
    match source
    case Listed(path) => path
    case Own => own
  }

  /** input_path_running_ after a source was taken. */
  function RunningAfter(running: Path, source: Source): Path {
    match source
    case Listed(path) => path
    case Own => running
  }

  /** The path GetInputStringForActualPath puts in the session config. */
  function SessionPath(running: Path, own: Path): Path {
    if running != "" then running else own
  }

  /** input_path_running_ of a task after it took these sources. */
  function RunningOver(sources: seq<Source>): Path {
    if sources == [] then ""
    else RunningAfter(RunningOver(sources[..|sources| - 1]), sources[|sources| - 1])
  }

  // ------------------------------------------------------------------ directories

  /** std::string::npos, the greatest size_t. */
  const NPOS: nat := 0xFFFF_FFFF_FFFF_FFFF

  function RFind(text: string, c: char): (at: nat)
    ensures at == NPOS || at < |text|
  {
    if text == "" then NPOS
    else if text[|text| - 1] == c then |text| - 1
    else RFind(text[..|text| - 1], c)
  }

  /** The test of MATask::Init, with size_t arithmetic. */
  predicate IsDirectory(path: Path) {
    RFind(path, '/') == (|path| + NPOS) % (NPOS + 1)
  }

  /** The empty path counts as a directory: rfind finds nothing and length() - 1 wraps to npos. */
  lemma DirectoryPaths(path: Path)
    requires |path| < NPOS
    ensures IsDirectory(path) <==> path == "" || path[|path| - 1] == '/'
  {
    if path != "" {
      assert |path| + NPOS == (|path| - 1) + (NPOS + 1);
      assert (|path| + NPOS) % (NPOS + 1) == |path| - 1;
    }
  }
}
