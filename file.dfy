/**
 * The pure parts of `src/file.rs`: merging the confirmed album fields and one file's track
 * fields into the record to be written, the texts of the ID3 frames written for it, and the
 * name the file is renamed to.
 */
module Files {
  import opened Wrappers
  import opened Text
  import opened Numbers
  import opened FileInputs
  import Album
  import Track

  /** `FileOutput`: everything written back to one file. */
  datatype FileOutput = FileOutput(
    path: Path,
    artist: string,
    albumArtist: string,
    album: string,
    year: I32,
    title: string,
    trackNumber: U32,
    totalTracks: U32,
    discNumber: U32,
    totalDiscs: U32)

  /** `FileOutput::from((path, &AlbumOutput, TrackOutput))`. */
  function Merge(path: Path, albumOutput: Album.AlbumOutput, trackOutput: Track.TrackOutput): FileOutput
  {
    FileOutput(path, albumOutput.artist, albumOutput.albumArtist, albumOutput.album, albumOutput.year,
               trackOutput.title, trackOutput.trackNumber, albumOutput.totalTracks,
               trackOutput.discNumber, albumOutput.totalDiscs)
  }

  /** The album fields a file output carries. */
  function AlbumPart(o: FileOutput): Album.AlbumOutput
  {
    Album.AlbumOutput(o.artist, o.albumArtist, o.album, o.year, o.totalTracks, o.totalDiscs)
  }

  /** The track fields a file output carries. */
  function TrackPart(o: FileOutput): Track.TrackOutput
  {
    Track.TrackOutput(o.trackNumber, o.discNumber, o.title)
  }

  /**
   * The merged record takes every album field from the album output and every track field from
   * the track output, and keeps the path: nothing is lost or mixed up, and a record is exactly
   * the merge of its two parts.
   */
  lemma MergeKeepsParts(path: Path, albumOutput: Album.AlbumOutput, trackOutput: Track.TrackOutput, o: FileOutput)
    ensures var m := Merge(path, albumOutput, trackOutput);
      m.path == path && AlbumPart(m) == albumOutput && TrackPart(m) == trackOutput
    ensures Merge(o.path, AlbumPart(o), TrackPart(o)) == o
  {
  }

  /** An ID3v2 text frame: its four-letter identifier and its text. */
  datatype Frame = Frame(id: string, text: string)

  /** `format!` of `n` and `total`, each with width `02`, joined by `/`: the text of a TRCK or TPOS frame. */
  function PairText(n: U32, total: U32): string
  {
    Pad2(n) + "/" + Pad2(total)
  }

  /** The frames `FileOutput::write` adds to the new tag, in the order it adds them. */
  function Frames(o: FileOutput): seq<Frame>
  {
    [ Frame("TPE1", o.artist),
      Frame("TPE2", o.albumArtist),
      Frame("TALB", o.album),
      Frame("TDRC", FormatInt(o.year)),
      Frame("TIT2", o.title),
      Frame("TRCK", PairText(o.trackNumber, o.totalTracks)),
      Frame("TPOS", PairText(o.discNumber, o.totalDiscs)) ]
  }

  /** A field padded with width `02` is all digits, so it holds no separator. */
  lemma Pad2HasNoSeparator(n: U32, sep: char)
    requires !IsDigit(sep)
    ensures sep !in Pad2(n)
  {
    Pad2Digits(n);
  }

  /**
   * A TRCK or TPOS text splits at `/` into exactly the two padded numbers, each with at least
   * two digits, and each reads back as the number written.
   */
  lemma PairTextReadsBack(n: U32, total: U32)
    ensures Split(PairText(n, total), '/') == [Pad2(n), Pad2(total)]
    ensures |Pad2(n)| >= 2 && |Pad2(total)| >= 2
    ensures ParseU32(Pad2(n)) == Ok(n) && ParseU32(Pad2(total)) == Ok(total)
  {
    Pad2HasNoSeparator(n, '/');
    Pad2HasNoSeparator(total, '/');
    SplitAtFirst(Pad2(n), '/', Pad2(total));
    SplitWithoutSeparator(Pad2(total), '/');
    Pad2Digits(n);
    Pad2Digits(total);
    ParsePad2(n);
    ParsePad2(total);
  }

  /**
   * The written frames carry the whole record: the three names and the title verbatim, the year
   * as text that parses back to it, and both number pairs as `/`-separated texts that split and
   * parse back to them.
   */
  lemma FramesReadBack(o: FileOutput)
    ensures var f := Frames(o);
      && |f| == 7
      && f[0].text == o.artist && f[1].text == o.albumArtist && f[2].text == o.album && f[4].text == o.title
      && ParseI32(f[3].text) == Ok(o.year)
      && Split(f[5].text, '/') == [Pad2(o.trackNumber), Pad2(o.totalTracks)]
      && Split(f[6].text, '/') == [Pad2(o.discNumber), Pad2(o.totalDiscs)]
  {
    ParseFormatI32(o.year);
    PairTextReadsBack(o.trackNumber, o.totalTracks);
    PairTextReadsBack(o.discNumber, o.totalDiscs);
  }

  /** No frame is added twice: the seven identifiers are distinct. */
  lemma FrameIdsDistinct(o: FileOutput)
    ensures forall i, j :: 0 <= i < j < |Frames(o)| ==> Frames(o)[i].id != Frames(o)[j].id
  {
    var ids := seq(7, i requires 0 <= i < 7 => Frames(o)[i].id);
    assert ids == ["TPE1", "TPE2", "TALB", "TDRC", "TIT2", "TRCK", "TPOS"];
  }

  /** The number at the head of the new file name: disc and track when there is more than one disc, else the track. */
  function NumberPrefix(o: FileOutput): string
  {
    if o.totalDiscs > 1 then Pad2(o.discNumber) + "-" + Pad2(o.trackNumber) else Pad2(o.trackNumber)
  }

  /**
   * The prefix holds a `-` exactly when the album has more than one disc; then it splits into
   * the disc and the track number, otherwise it is the track number alone. Either way the
   * numbers read back.
   */
  lemma NumberPrefixReadsBack(o: FileOutput)
    ensures '-' in NumberPrefix(o) <==> o.totalDiscs > 1
    ensures o.totalDiscs > 1 ==> Split(NumberPrefix(o), '-') == [Pad2(o.discNumber), Pad2(o.trackNumber)]
    ensures o.totalDiscs <= 1 ==> ParseU32(NumberPrefix(o)) == Ok(o.trackNumber)
    ensures o.totalDiscs > 1 ==> ParseU32(Pad2(o.discNumber)) == Ok(o.discNumber)
    ensures ParseU32(Pad2(o.trackNumber)) == Ok(o.trackNumber)
  {
    Pad2HasNoSeparator(o.discNumber, '-');
    Pad2HasNoSeparator(o.trackNumber, '-');
    ParsePad2(o.discNumber);
    ParsePad2(o.trackNumber);
    if o.totalDiscs > 1 {
      SplitAtFirst(Pad2(o.discNumber), '-', Pad2(o.trackNumber));
      SplitWithoutSeparator(Pad2(o.trackNumber), '-');
      assert NumberPrefix(o)[|Pad2(o.discNumber)|] == '-';
    }
  }

  /** `format!("{} - {}.mp3", number, title)`: the new file name. */
  function FileName(o: FileOutput): string
  {
    NumberPrefix(o) + " - " + o.title + ".mp3"
  }

  /** The file name starts with the number prefix and `" - "`, ends in `.mp3`, and holds the title verbatim in between. */
  lemma FileNameParts(o: FileOutput)
    ensures var name, prefix := FileName(o), NumberPrefix(o);
      && |name| == |prefix| + 3 + |o.title| + 4
      && StartsWith(name, prefix + " - ")
      && EndsWith(name, ".mp3")
      && name[|prefix| + 3..|name| - 4] == o.title
  {
    var name, prefix := FileName(o), NumberPrefix(o);
    assert name == (prefix + " - ") + o.title + ".mp3";
    assert name[..|prefix| + 3] == prefix + " - ";
    assert name[|name| - 4..] == ".mp3";
  }

  /** Two outputs on the same disc of albums with as many discs get the same file name only if track number and title agree. */
  lemma FileNameTellsTracksApart(o: FileOutput, p: FileOutput)
    requires o.totalDiscs == p.totalDiscs && o.discNumber == p.discNumber
    requires FileName(o) == FileName(p)
    ensures o.trackNumber == p.trackNumber && o.title == p.title
  {
    var a, b := NumberPrefix(o), NumberPrefix(p);
    SamePrefixLength(o, p);
    FileNameParts(o);
    FileNameParts(p);
    assert a == FileName(o)[..|a|] && b == FileName(p)[..|b|];
    NumberPrefixReadsBack(o);
    NumberPrefixReadsBack(p);
    if o.totalDiscs > 1 {
      assert [Pad2(o.discNumber), Pad2(o.trackNumber)] == [Pad2(p.discNumber), Pad2(p.trackNumber)];
    }
  }

  /** Equal file names start with number prefixes of the same length, since a prefix never holds the space of `" - "`. */
  lemma SamePrefixLength(o: FileOutput, p: FileOutput)
    requires FileName(o) == FileName(p)
    ensures |NumberPrefix(o)| == |NumberPrefix(p)|
  {
    var a, b := NumberPrefix(o), NumberPrefix(p);
    PrefixHasNoSpace(o);
    PrefixHasNoSpace(p);
    assert FileName(o) == a + (" - " + o.title + ".mp3");
    assert FileName(p) == b + (" - " + p.title + ".mp3");
    IndexOfAfter(a, ' ', " - " + o.title + ".mp3");
    IndexOfAfter(b, ' ', " - " + p.title + ".mp3");
  }

  /** The number prefix is made of digits and at most a `-`: it holds no space. */
  lemma PrefixHasNoSpace(o: FileOutput)
    ensures ' ' !in NumberPrefix(o)
  {
    Pad2HasNoSeparator(o.discNumber, ' ');
    Pad2HasNoSeparator(o.trackNumber, ' ');
  }

  /**
   * `Path::with_file_name`: the last component is replaced by `name`; a path without a file
   * name (empty, or ending in `..`) gets `name` appended instead.
   */
  function WithFileName(path: Path, name: string): (r: Path)
    ensures r != [] && r[|r| - 1] == name
    ensures path != [] && path[|path| - 1] != ".." ==> r[..|r| - 1] == path[..|path| - 1]
    ensures path == [] || path[|path| - 1] == ".." ==> r[..|r| - 1] == path
  {
    if path == [] || path[|path| - 1] == ".." then path + [name] else path[..|path| - 1] + [name]
  }

  /** The path the file is renamed to: its new name, in the directory it was in. */
  function NewPath(o: FileOutput): (r: Path)
    ensures r != [] && r[|r| - 1] == FileName(o)
    ensures o.path != [] && o.path[|o.path| - 1] != ".." ==> r[..|r| - 1] == o.path[..|o.path| - 1]
  {
    WithFileName(o.path, FileName(o))
  }
}
