/**
 * `FileInput` from `src/file.rs`: the tags read from one file, each possibly missing. It sits in
 * its own module because the album and track editors read it while `file.rs` in turn uses their
 * outputs, a cycle Rust modules allow and Dafny modules do not.
 */
module FileInputs {
  import opened Wrappers
  import opened Numbers

  /** A file system path as its sequence of components (Rust's `PathBuf`, Python's path strings). */
  type Path = seq<string>

  datatype FileInput = FileInput(
    path: Path,
    artist: Option<string>,
    albumArtist: Option<string>,
    album: Option<string>,
    year: Option<I32>,
    title: Option<string>,
    trackNumber: Option<U32>,
    totalTracks: Option<U32>,
    discNumber: Option<U32>,
    totalDiscs: Option<U32>)
}
