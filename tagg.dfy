/**
 * The logic of the older Python version, `tagg.py`: how an item name such as `track_number` is
 * read from a file's ID3 frames, the answer validators, the common and per-file tags gathered
 * from the files, and where `copy_files` puts each file.
 */
module Tagg {
  import opened Wrappers
  import opened Text
  import opened Numbers
  import opened FileInputs
  import opened PyCollections
  import Files

  /** `ID3_FRAMES_MAP`: the frame each base item name is read from. */
  const FrameNames: map<string, string> := map[
    "artist" := "TPE1",
    "album_artist" := "TPE2",
    "album" := "TALB",
    "year" := "TDRC",
    "title" := "TIT2",
    "track" := "TRCK",
    "disc" := "TPOS"]

  /** The exceptions `ID3Reader.__getitem__` can raise for a malformed item name. */
  datatype ReadError =
    | Unpack        // `ValueError`: the name did not split at `_` into exactly two parts
    | UnknownItem(name: string)   // `KeyError`: the base name has no frame

  /**
   * The name handling of `ID3Reader.__getitem__`: a name ending in `number` is `base_kind`, a
   * name starting with `total` is `kind_bases` (the plural `s` dropped); any other name is a
   * base name with no kind.
   */
  function Dispatch(item: string): Result<(string, Option<string>), ReadError>
  {
    if EndsWith(item, "number") then
      var parts := Split(item, '_');
      if |parts| != 2 then Err(Unpack) else Ok((parts[0], Some(parts[1])))
    else if StartsWith(item, "total") then
      var parts := Split(item, '_');
      if |parts| != 2 then Err(Unpack)
      else Ok((if parts[1] == [] then [] else parts[1][..|parts[1]| - 1], Some(parts[0])))
    else Ok((item, None))
  }

  /**
   * The `n/m` handling: for a `number` the text before the one `/`, for a `total` the text after
   * it; a text that is not exactly two parts stays whole for a `number` and is empty for a
   * `total`. Empty text and names without a kind are left alone.
   */
  function SplitPart(text: string, kind: Option<string>): string
  {
    if text == [] || kind.None? || kind.value == [] then text
    else
      var parts := Split(text, '/');
      if |parts| == 2 then
        if kind.value == "number" then parts[0] else if kind.value == "total" then parts[1] else text
      else if kind.value == "total" then [] else text
  }

  /**
   * `ID3Reader.__getitem__` over the file's frames (`None` when the file has no ID3 header):
   * `None` when there is no tag or it holds no frame, `''` when the frame is absent, otherwise
   * the frame's text, split as `SplitPart` says.
   */
  function ReadItem(tags: Option<map<string, string>>, item: string): Result<Option<string>, ReadError>
  {
    if tags.None? || tags.value == map[] then Ok(None)
    else
      match Dispatch(item)
      case Err(e) => Err(e)
      case Ok((name, kind)) =>
        if name !in FrameNames then Err(UnknownItem(name))
        else
          var text := if FrameNames[name] in tags.value then tags.value[FrameNames[name]] else "";
          Ok(Some(SplitPart(text, kind)))
  }

  /** A file without a tag, or with an empty one, reads as `None` under every name, well formed or not. */
  lemma NoTagReadsNone(tags: Option<map<string, string>>, item: string)
    requires tags.None? || tags.value == map[]
    ensures ReadItem(tags, item) == Ok(None)
  {
  }

  /** A name `base_number` is dispatched to the frame of `base`, as its number part. */
  lemma NumberName(base: string)
    requires '_' !in base
    ensures Dispatch(base + "_number") == Ok((base, Some("number")))
  {
    var item := base + "_number";
    assert item == base + ['_'] + "number";
    assert item[|item| - 6..] == "number";
    SplitAtFirst(base, '_', "number");
    SplitWithoutSeparator("number", '_');
  }

  /** `total_xs` splits at `_` into `total` and `xs`. */
  lemma TotalSplit(plural: string)
    requires '_' !in plural
    ensures Split("total" + ['_'] + plural, '_') == ["total", plural]
  {
    SplitAtFirst("total", '_', plural);
    SplitWithoutSeparator(plural, '_');
  }

  /** `total_xs` ends in `number` only if `xs` does. */
  lemma TotalNotNumbered(plural: string)
    requires '_' !in plural && !EndsWith(plural, "number")
    ensures !EndsWith("total" + ['_'] + plural, "number")
  {
    var item := "total" + ['_'] + plural;
    if |plural| >= 6 {
      assert item[|item| - 6..] == plural[|plural| - 6..];
    } else {
      assert item[|item| - 6..][5 - |plural|] == '_';
    }
  }

  /** A name `total_bases` is dispatched to the frame of `base` (the last letter dropped), as its total part. */
  lemma TotalName(base: string, last: char)
    requires '_' !in base && last != '_'
    requires !EndsWith(base + [last], "number")
    ensures Dispatch("total_" + base + [last]) == Ok((base, Some("total")))
  {
    var plural := base + [last];
    var item := "total" + ['_'] + plural;
    assert "total_" + base + [last] == item;
    TotalSplit(plural);
    TotalNotNumbered(plural);
    assert item[..5] == "total";
    assert plural[..|plural| - 1] == base;
  }

  /** The item names the program asks for, beyond the plain ones. */
  const TrackNumber: string := "track_number"
  const TotalTracks: string := "total_tracks"
  const DiscNumber: string := "disc_number"
  const TotalDiscs: string := "total_discs"

  /** `track_number` is the number part of frame TRCK. */
  lemma TrackNumberName()
    ensures Dispatch(TrackNumber) == Ok(("track", Some("number")))
  {
    NumberName("track");
    assert "track" + "_number" == TrackNumber;
  }

  /** `total_tracks` is the total part of frame TRCK. */
  lemma TotalTracksName()
    ensures Dispatch(TotalTracks) == Ok(("track", Some("total")))
  {
    var plural := "track" + ['s'];
    assert plural[0] != "number"[0];
    TotalName("track", 's');
    assert "total_" + "track" + ['s'] == TotalTracks;
  }

  /** `disc_number` is the number part of frame TPOS. */
  lemma DiscNumberName()
    ensures Dispatch(DiscNumber) == Ok(("disc", Some("number")))
  {
    NumberName("disc");
    assert "disc" + "_number" == DiscNumber;
  }

  /** `total_discs` is the total part of frame TPOS. */
  lemma TotalDiscsName()
    ensures Dispatch(TotalDiscs) == Ok(("disc", Some("total")))
  {
    TotalName("disc", 's');
    assert "total_" + "disc" + ['s'] == TotalDiscs;
  }

  /** A name that neither ends in `number` nor starts with `total` is read whole from its own frame. */
  lemma PlainName(item: string)
    requires !EndsWith(item, "number") && !StartsWith(item, "total")
    ensures Dispatch(item) == Ok((item, None))
  {
  }

  /** A `number` is the text before the `/` of an `n/m` text, a `total` the text after it. */
  lemma PairSplits(a: string, b: string)
    requires '/' !in a && '/' !in b
    ensures SplitPart(a + "/" + b, Some("number")) == a
    ensures SplitPart(a + "/" + b, Some("total")) == b
  {
    SplitAtFirst(a, '/', b);
    SplitWithoutSeparator(b, '/');
    assert a + "/" + b == a + ['/'] + b;
  }

  /** Without a `/`, a `number` is the whole text and a `total` is empty. */
  lemma SingleSplits(text: string)
    requires '/' !in text
    ensures SplitPart(text, Some("number")) == text
    ensures SplitPart(text, Some("total")) == ""
  {
    SplitWithoutSeparator(text, '/');
  }

  /** A frame missing from a non-empty tag reads as `''`, whatever the name asks of it. */
  lemma MissingFrameReadsEmpty(tags: map<string, string>, item: string)
    requires tags != map[] && Dispatch(item).Ok? && Dispatch(item).value.0 in FrameNames
    requires FrameNames[Dispatch(item).value.0] !in tags
    ensures ReadItem(Some(tags), item) == Ok(Some(""))
  {
  }

  /**
   * The Python reader reads back the TRCK text the Rust version writes: `track_number` gives the
   * padded track number and `total_tracks` the padded total.
   */
  lemma ReadsWrittenTrackFrame(n: U32, total: U32, tags: map<string, string>)
    requires "TRCK" in tags && tags["TRCK"] == Files.PairText(n, total)
    ensures ReadItem(Some(tags), TrackNumber) == Ok(Some(Pad2(n)))
    ensures ReadItem(Some(tags), TotalTracks) == Ok(Some(Pad2(total)))
  {
    TrackNumberName();
    TotalTracksName();
    Files.Pad2HasNoSeparator(n, '/');
    Files.Pad2HasNoSeparator(total, '/');
    Files.PairTextReadsBack(n, total);
    PairSplits(Pad2(n), Pad2(total));
    assert FrameNames["track"] == "TRCK";
  }

  /** The two validators of `edit_tag`. */
  datatype Validator = Required | Digit

  /** `edit_tag`'s choice: digits only for a name containing `number` or `total`, otherwise just non-empty. */
  function ChooseValidator(tagName: string): Validator
  {
    if Contains(tagName, "number") || Contains(tagName, "total") then Digit else Required
  }

  /** `validate`: the message of the `ValidationError` raised, or nothing when the text is accepted. */
  function Validate(v: Validator, text: string): Result<(), string>
  {
    if text == [] then Err("Value is required")
    else if v == Digit && !AllDigits(text) then Err("Accepts numeric characters only")
    else Ok(())
  }

  /**
   * `RequiredValidator` accepts exactly the non-empty texts and `DigitValidator` exactly the
   * non-empty texts of digits; an accepted digit text is a decimal number Python's `int` reads
   * without error.
   */
  lemma ValidatorsAccept(v: Validator, text: string)
    ensures Validate(v, text).Ok? <==> text != [] && (v == Digit ==> AllDigits(text))
    ensures Validate(Required, text).Err? ==> Validate(Digit, text).Err?
    ensures Validate(Digit, text).Ok? ==> PyInt(text) == Ok(DigitsValue(text))
  {
    if Validate(Digit, text).Ok? {
      PyIntDigits(text);
    }
  }

  /** A text contains every piece written into it. */
  lemma ContainsPiece(pre: string, sub: string, post: string)
    ensures Contains(pre + sub + post, sub)
  {
    var s := pre + sub + post;
    assert s[|pre|..][..|sub|] == sub;
  }

  /** A text shorter than `sub`, or as long but different, does not contain it. */
  lemma ContainsNothingLonger(s: string, sub: string)
    requires |s| < |sub| || (|s| == |sub| && s != sub)
    ensures !Contains(s, sub)
  {
    if |s| == |sub| {
      assert s[0..] == s;
    }
  }

  /** A name with `number` or `total` in it gets the digit validator. */
  lemma CountNameTakesDigits(pre: string, word: string, post: string)
    requires word == "number" || word == "total"
    ensures ChooseValidator(pre + word + post) == Digit
  {
    ContainsPiece(pre, word, post);
  }

  /** The two number names get the digit validator. */
  lemma NumberNamesTakeDigits()
    ensures ChooseValidator(TrackNumber) == Digit && ChooseValidator(DiscNumber) == Digit
  {
    CountNameTakesDigits("track_", "number", "");
    assert "track_" + "number" + "" == TrackNumber;
    CountNameTakesDigits("disc_", "number", "");
    assert "disc_" + "number" + "" == DiscNumber;
  }

  /** The two total names get the digit validator. */
  lemma TotalNamesTakeDigits()
    ensures ChooseValidator(TotalTracks) == Digit && ChooseValidator(TotalDiscs) == Digit
  {
    CountNameTakesDigits("", "total", "_tracks");
    assert "" + "total" + "_tracks" == TotalTracks;
    CountNameTakesDigits("", "total", "_discs");
    assert "" + "total" + "_discs" == TotalDiscs;
  }

  /** The year, the title and the album only need an answer: the year is not checked for digits. */
  lemma ShortNamesTakeAnyAnswer()
    ensures ChooseValidator("year") == Required && ChooseValidator("title") == Required
    ensures ChooseValidator("album") == Required
  {
    ContainsNothingLonger("year", "number");
    ContainsNothingLonger("year", "total");
    ContainsNothingLonger("title", "number");
    ContainsNothingLonger("title", "total");
    ContainsNothingLonger("album", "number");
    ContainsNothingLonger("album", "total");
  }

  /** An `ID3Reader`: the file's path and its frames, `None` when the file has no ID3 header. */
  datatype Reader = Reader(path: Path, tags: Option<map<string, string>>)

  /** The keys `get_common_tags` gathers, in its order. */
  const CommonKeys: seq<string> := ["artist", "album_artist", "album", "year", TotalTracks, TotalDiscs]

  /** The keys `get_items_tags` gathers for each file, in its order. */
  const ItemKeys: seq<string> := ["title", TrackNumber, DiscNumber]

  /** A plain item name is read from a frame when its frame is known. */
  lemma PlainNameReads(tags: Option<map<string, string>>, item: string)
    requires |item| < 6 || item[|item| - 6] != 'n'
    requires |item| < 5 || item[0] != 't' || item[1] != 'o'
    requires item in FrameNames
    ensures ReadItem(tags, item).Ok?
  {
    if |item| >= 6 {
      assert item[|item| - 6..][0] != "number"[0];
    }
    if |item| >= 5 {
      assert item[..5][0] != "total"[0] || item[..5][1] != "total"[1];
    }
    PlainName(item);
  }

  /** Every name the program asks for reads without an exception, from every file. */
  lemma KnownKeysRead(tags: Option<map<string, string>>, key: string)
    requires key in CommonKeys || key in ItemKeys
    ensures ReadItem(tags, key).Ok?
  {
    if key == TrackNumber {
      TrackNumberName();
    } else if key == DiscNumber {
      DiscNumberName();
    } else if key == TotalTracks {
      TotalTracksName();
    } else if key == TotalDiscs {
      TotalDiscsName();
    } else if key == "artist" {
      PlainNameReads(tags, "artist");
    } else if key == "album_artist" {
      PlainNameReads(tags, "album_artist");
    } else if key == "album" {
      PlainNameReads(tags, "album");
    } else if key == "year" {
      PlainNameReads(tags, "year");
    } else {
      assert key == "title";
      PlainNameReads(tags, "title");
    }
  }

  /** `item[key]` for a name the program asks for. */
  function Tag(r: Reader, key: string): Option<string>
    requires key in CommonKeys || key in ItemKeys
  {
    KnownKeysRead(r.tags, key);
    ReadItem(r.tags, key).value
  }

  /** The pairs `(key, item[key])` for the given keys, in order. */
  function Row(r: Reader, keys: seq<string>): seq<(string, Option<string>)>
    requires forall k :: k in keys ==> k in CommonKeys || k in ItemKeys
  {
    seq(|keys|, j requires 0 <= j < |keys| => (keys[j], Tag(r, keys[j])))
  }

  /** The assignments `counter[key] = item[key]` of `get_common_tags`, file by file, key by key. */
  function CommonObservations(items: seq<Reader>): seq<(string, Option<string>)>
    decreases |items|
  {
    if items == [] then []
    else CommonObservations(items[..|items| - 1]) + Row(items[|items| - 1], CommonKeys)
  }

  /** The value of a key in each file, in order. */
  function Column(items: seq<Reader>, key: string): seq<Option<string>>
    requires key in CommonKeys || key in ItemKeys
    decreases |items|
  {
    if items == [] then [] else Column(items[..|items| - 1], key) + [Tag(items[|items| - 1], key)]
  }

  /** `Counter.__getitem__` yields the most common value, itself `None` when the read gave `None`. */
  function Flatten(o: Option<Option<string>>): Option<string>
  {
    if o.Some? then o.value else None
  }

  /** What `get_common_tags` returns: the counter's keys, each with its most common value. */
  function CommonTags(items: seq<Reader>): seq<(string, Option<string>)>
  {
    var summary := Summary(RecordAll(PyCollections.Empty(), CommonObservations(items)));
    seq(|summary|, i requires 0 <= i < |summary| => (summary[i].0, Flatten(summary[i].1)))
  }

  /** Counting one more pair is recording it in the dictionary already built. */
  lemma RecordAllSnoc(m: OrderedMap<string, seq<Tally<Option<string>>>>, obs: seq<(string, Option<string>)>, x: (string, Option<string>))
    ensures RecordAll(m, obs + [x]) == Record(RecordAll(m, obs), x.0, x.1)
  {
    assert (obs + [x])[..|obs|] == obs;
  }

  /** The assignments made before key `j` of file `i`. */
  function CountedSoFar(items: seq<Reader>, i: nat, j: nat): seq<(string, Option<string>)>
    requires i < |items| && j <= |CommonKeys|
  {
    CommonObservations(items[..i]) + Row(items[i], CommonKeys[..j])
  }

  /** A row for one more key is the row so far, then that key's pair. */
  lemma RowSnoc(r: Reader, keys: seq<string>, key: string)
    requires forall k :: k in keys ==> k in CommonKeys || k in ItemKeys
    requires key in CommonKeys || key in ItemKeys
    ensures Row(r, keys + [key]) == Row(r, keys) + [(key, Tag(r, key))]
  {
    var longer := Row(r, keys + [key]);
    var parts := Row(r, keys) + [(key, Tag(r, key))];
    assert |longer| == |parts|;
    forall j | 0 <= j < |longer|
      ensures longer[j] == parts[j]
    {
      if j < |keys| {
        assert (keys + [key])[j] == keys[j];
      }
    }
  }

  /** The assignment of key `j` of file `i` comes next. */
  lemma CountedOneMore(items: seq<Reader>, i: nat, j: nat)
    requires i < |items| && j < |CommonKeys|
    ensures CountedSoFar(items, i, j + 1) == CountedSoFar(items, i, j) + [(CommonKeys[j], Tag(items[i], CommonKeys[j]))]
  {
    assert CommonKeys[..j + 1] == CommonKeys[..j] + [CommonKeys[j]];
    RowSnoc(items[i], CommonKeys[..j], CommonKeys[j]);
  }

  /** Before file `i` all earlier files have been counted; after its last key, file `i` has too. */
  lemma CountedFile(items: seq<Reader>, i: nat)
    requires i < |items|
    ensures CountedSoFar(items, i, 0) == CommonObservations(items[..i])
    ensures CountedSoFar(items, i, |CommonKeys|) == CommonObservations(items[..i + 1])
  {
    assert items[..i + 1][..i] == items[..i];
    assert CommonKeys[..|CommonKeys|] == CommonKeys;
    assert Row(items[i], CommonKeys[..0]) == [];
  }

  /** `get_common_tags`: every file's six common keys counted in a `Counter`, then read back in order. */
  method GetCommonTags(items: seq<Reader>) returns (r: seq<(string, Option<string>)>)
    ensures r == CommonTags(items)
  {
    var counter := new Counter<string, Option<string>>();
    for i := 0 to |items|
      invariant counter.Valid() && fresh(counter.data)
      invariant counter.data.Model() == RecordAll(PyCollections.Empty(), CommonObservations(items[..i]))
    {
      CountedFile(items, i);
      for j := 0 to |CommonKeys|
        invariant counter.Valid()
        invariant counter.data.Model() == RecordAll(PyCollections.Empty(), CountedSoFar(items, i, j))
      {
        var key := CommonKeys[j];
        CountedOneMore(items, i, j);
        RecordAllSnoc(PyCollections.Empty(), CountedSoFar(items, i, j), (key, Tag(items[i], key)));
        counter.Set(key, Tag(items[i], key));
      }
    }
    assert items[..|items|] == items;
    var summary := counter.Items();
    r := seq(|summary|, i requires 0 <= i < |summary| => (summary[i].0, Flatten(summary[i].1)));
  }

  /** The values read for one key, split at any point, are the values of the two parts. */
  lemma {:induction false} ValuesForConcat(a: seq<(string, Option<string>)>, b: seq<(string, Option<string>)>, k: string)
    ensures ValuesFor(a + b, k) == ValuesFor(a, k) + ValuesFor(b, k)
    decreases |b|
  {
    if b == [] {
      assert a + b == a;
    } else {
      assert (a + b)[..|a + b| - 1] == a + b[..|b| - 1];
      ValuesForConcat(a, b[..|b| - 1], k);
    }
  }

  /** In one file's row of distinct keys, a key is read once if it is one of them and never otherwise. */
  lemma {:induction false} ValuesForRow(r: Reader, keys: seq<string>, key: string)
    requires forall k :: k in keys ==> k in CommonKeys || k in ItemKeys
    requires Distinct(keys)
    ensures ValuesFor(Row(r, keys), key) == if key in keys then [Tag(r, key)] else []
    decreases |keys|
  {
    if keys != [] {
      var front := keys[..|keys| - 1];
      assert Row(r, keys)[..|keys| - 1] == Row(r, front);
      ValuesForRow(r, front, key);
      assert keys == front + [keys[|keys| - 1]];
    }
  }

  /** No common key is listed twice. */
  lemma CommonKeysDistinct()
    ensures Distinct(CommonKeys)
  {
  }

  /** One file's row of common keys holds a common key exactly once. */
  lemma RowHoldsKeyOnce(r: Reader, key: string)
    requires key in CommonKeys
    ensures ValuesFor(Row(r, CommonKeys), key) == [Tag(r, key)]
  {
    CommonKeysDistinct();
    ValuesForRow(r, CommonKeys, key);
  }

  /** A column is the column of all files but the last, then the last file's value. */
  lemma ColumnSnoc(items: seq<Reader>, key: string)
    requires items != [] && key in CommonKeys
    ensures Column(items, key) == Column(items[..|items| - 1], key) + [Tag(items[|items| - 1], key)]
  {
  }

  /** The values counted for a common key are that key's value in each file, in file order. */
  lemma {:induction false} ColumnCounted(items: seq<Reader>, key: string)
    requires key in CommonKeys
    ensures ValuesFor(CommonObservations(items), key) == Column(items, key)
    decreases |items|
  {
    if items != [] {
      var front, last := items[..|items| - 1], items[|items| - 1];
      ColumnCounted(front, key);
      ValuesForConcat(CommonObservations(front), Row(last, CommonKeys), key);
      RowHoldsKeyOnce(last, key);
      ColumnSnoc(items, key);
    }
  }

  /** Keys first seen in two runs of assignments: those of the first run, then the new ones of the second. */
  lemma {:induction false} KeyOrderConcat(known: seq<string>, a: seq<(string, Option<string>)>, b: seq<(string, Option<string>)>)
    ensures KeyOrder(known, a + b) == KeyOrder(KeyOrder(known, a), b)
    decreases |b|
  {
    if b == [] {
      assert a + b == a;
    } else {
      assert (a + b)[..|a + b| - 1] == a + b[..|b| - 1];
      KeyOrderConcat(known, a, b[..|b| - 1]);
    }
  }

  /** A row whose keys are all known adds no key. */
  lemma {:induction false} KeyOrderKnown(known: seq<string>, r: Reader, keys: seq<string>)
    requires forall k :: k in keys ==> k in CommonKeys || k in ItemKeys
    requires forall k :: k in keys ==> k in known
    ensures KeyOrder(known, Row(r, keys)) == known
    decreases |keys|
  {
    if keys != [] {
      var front := keys[..|keys| - 1];
      assert Row(r, keys)[..|keys| - 1] == Row(r, front);
      KeyOrderKnown(known, r, front);
    }
  }

  /** The first row of distinct keys introduces its keys in its own order. */
  lemma {:induction false} KeyOrderRow(r: Reader, keys: seq<string>)
    requires forall k :: k in keys ==> k in CommonKeys || k in ItemKeys
    requires Distinct(keys)
    ensures KeyOrder([], Row(r, keys)) == keys
    decreases |keys|
  {
    if keys != [] {
      var front := keys[..|keys| - 1];
      assert Row(r, keys)[..|keys| - 1] == Row(r, front);
      KeyOrderRow(r, front);
      assert keys == front + [keys[|keys| - 1]];
    }
  }

  /** Once a file has been counted, the counter's keys are the six common keys in their order. */
  lemma {:induction false} CommonKeyOrder(items: seq<Reader>)
    requires items != []
    ensures KeyOrder([], CommonObservations(items)) == CommonKeys
    decreases |items|
  {
    var front := items[..|items| - 1];
    var last := items[|items| - 1];
    KeyOrderConcat([], CommonObservations(front), Row(last, CommonKeys));
    if front == [] {
      CommonKeysDistinct();
      KeyOrderRow(last, CommonKeys);
    } else {
      CommonKeyOrder(front);
      KeyOrderKnown(CommonKeys, last, CommonKeys);
    }
  }

  /** `v` is one of the values in `col`, and no value occurs in `col` more often. */
  ghost predicate IsMostCommon(v: Option<string>, col: seq<Option<string>>)
  {
    v in col && forall u :: multiset(col)[u] <= multiset(col)[v]
  }

  /**
   * `get_common_tags` returns nothing for no files; otherwise it returns the six common keys in
   * order, each with a value that the most files agree on for that key.
   */
  lemma CommonTagsAreMostCommon(items: seq<Reader>)
    ensures items == [] ==> CommonTags(items) == []
    ensures items != [] ==>
      && |CommonTags(items)| == |CommonKeys|
      && forall j :: 0 <= j < |CommonKeys| ==>
           CommonTags(items)[j].0 == CommonKeys[j] && IsMostCommon(CommonTags(items)[j].1, Column(items, CommonKeys[j]))
  {
    var obs := CommonObservations(items);
    var m := RecordAll(PyCollections.Empty(), obs);
    RecordAllKeyOrder(PyCollections.Empty(), obs);
    if items != [] {
      CommonKeyOrder(items);
      forall j | 0 <= j < |CommonKeys|
        ensures CommonTags(items)[j].0 == CommonKeys[j] && IsMostCommon(CommonTags(items)[j].1, Column(items, CommonKeys[j]))
      {
        var key := CommonKeys[j];
        RecordAllTallies(PyCollections.Empty(), obs, key);
        ColumnCounted(items, key);
        MostCommonOfCounts(Column(items, key));
      }
    }
  }

  /** `get_items_tags`: each file's path mapped to its title, track number and disc number, later files winning. */
  function ItemsTags(items: seq<Reader>): OrderedMap<Path, seq<(string, Option<string>)>>
    decreases |items|
  {
    if items == [] then PyCollections.Empty()
    else
      var last := items[|items| - 1];
      Put(ItemsTags(items[..|items| - 1]), last.path, Row(last, ItemKeys))
  }

  /** The dictionary `get_items_tags` builds is well formed. */
  lemma {:induction false} ItemsTagsWellFormed(items: seq<Reader>)
    ensures WellFormed(ItemsTags(items))
    decreases |items|
  {
    if items != [] {
      var last := items[|items| - 1];
      ItemsTagsWellFormed(items[..|items| - 1]);
      PutKeepsOrder(ItemsTags(items[..|items| - 1]), last.path, Row(last, ItemKeys));
    }
  }

  /** The dictionary `get_items_tags` builds has one entry per distinct path. */
  lemma {:induction false} ItemsTagsPaths(items: seq<Reader>)
    ensures forall p :: p in ItemsTags(items).entries <==> exists i :: 0 <= i < |items| && items[i].path == p
    decreases |items|
  {
    if items != [] {
      var front := items[..|items| - 1];
      var last := items[|items| - 1];
      ItemsTagsPaths(front);
      forall p | p in ItemsTags(items).entries
        ensures exists i :: 0 <= i < |items| && items[i].path == p
      {
        if p != last.path {
          var i :| 0 <= i < |front| && front[i].path == p;
          assert items[i].path == p;
        }
      }
      forall p | exists i :: 0 <= i < |items| && items[i].path == p
        ensures p in ItemsTags(items).entries
      {
        var i :| 0 <= i < |items| && items[i].path == p;
        if i < |front| {
          assert front[i].path == p;
        }
      }
    }
  }

  /** A path maps to the row read from the last file with that path. */
  lemma {:induction false} ItemsTagsLastWins(items: seq<Reader>, i: nat)
    requires i < |items|
    requires forall j :: i < j < |items| ==> items[j].path != items[i].path
    ensures items[i].path in ItemsTags(items).entries
    ensures ItemsTags(items).entries[items[i].path] == Row(items[i], ItemKeys)
    decreases |items|
  {
    var front := items[..|items| - 1];
    if i < |front| {
      ItemsTagsLastWins(front, i);
    }
  }

  /** Errors of `copy_files` before any file is copied: a missing key, or a disc count `int` cannot read. */
  datatype CopyError = MissingKey(key: string) | NotAnInteger(text: string)

  /**
   * The white space `int` skips around a number: the ASCII tab, line feed, vertical tab, form
   * feed, carriage return and space, and the non-ASCII characters `str.isspace` accepts (the
   * next line, no-break and typographic spaces, and the line and paragraph separators). The
   * ASCII information separators U+001C to U+001F, although `str.isspace` accepts them, are
   * not skipped.
   */
  predicate IsIntSpace(c: char)
  {
    var n := c as int;
    n == 0x20 || 0x09 <= n <= 0x0D || n == 0x85 || n == 0xA0 || n == 0x1680
    || 0x2000 <= n <= 0x200A || n == 0x2028 || n == 0x2029 || n == 0x202F || n == 0x205F || n == 0x3000
  }

  /** The text without its leading white space. */
  function StripStart(s: string): (r: string)
    ensures |r| <= |s| && r == s[|s| - |r|..]
    ensures r != [] ==> !IsIntSpace(r[0])
    decreases |s|
  {
    if s != [] && IsIntSpace(s[0]) then StripStart(s[1..]) else s
  }

  /** The text without its trailing white space. */
  function StripEnd(s: string): (r: string)
    ensures |r| <= |s| && r == s[..|r|]
    ensures r != [] ==> !IsIntSpace(r[|r| - 1])
    decreases |s|
  {
    if s != [] && IsIntSpace(s[|s| - 1]) then StripEnd(s[..|s| - 1]) else s
  }

  /**
   * Decimal digits in groups joined by single underscores: the literal form `int` reads,
   * beginning and ending with a digit.
   */
  predicate DigitGroups(s: string)
  {
    s != [] && IsDigit(s[0]) && IsDigit(s[|s| - 1])
    && (forall i :: 0 <= i < |s| ==> IsDigit(s[i]) || s[i] == '_')
    && (forall i :: 0 <= i < |s| - 1 ==> s[i] == '_' ==> s[i + 1] != '_')
  }

  /** The digits of a grouped number, the underscores left out. */
  function DropUnderscores(s: string): (r: string)
    requires forall i :: 0 <= i < |s| ==> IsDigit(s[i]) || s[i] == '_'
    ensures AllDigits(r) && |r| <= |s|
    decreases |s|
  {
    if s == [] then []
    else (if s[0] == '_' then [] else [s[0]]) + DropUnderscores(s[1..])
  }

  /** A number with an optional leading `+` or `-`, or nothing when the text is not one. */
  function ReadSigned(t: string): Option<int>
  {
    var body := if t != [] && (t[0] == '+' || t[0] == '-') then t[1..] else t;
    if DigitGroups(body) then
      var n := DigitsValue(DropUnderscores(body));
      Some(if t[0] == '-' then -(n as int) else n)
    else None
  }

  /**
   * Python's `int(text)` in base 10: white space around the number is skipped, a `+` or `-`
   * sign may lead, and the digits may be grouped by single underscores; any other text
   * raises `ValueError`.
   */
  function PyInt(text: string): Result<int, CopyError>
  {
    match ReadSigned(StripEnd(StripStart(text)))
    case Some(n) => Ok(n)
    case None => Err(NotAnInteger(text))
  }

  /** Text that neither begins nor ends with white space is read as it stands. */
  lemma Unstripped(s: string)
    requires s != [] && !IsIntSpace(s[0]) && !IsIntSpace(s[|s| - 1])
    ensures StripEnd(StripStart(s)) == s
  {
  }

  /** Digits alone need no stripping and hold no underscore. */
  lemma {:induction false} DropNoUnderscores(s: string)
    requires AllDigits(s)
    ensures DropUnderscores(s) == s
    decreases |s|
  {
    if s != [] {
      DropNoUnderscores(s[1..]);
    }
  }

  /** A non-empty text of digits is the number it writes. */
  lemma PyIntDigits(text: string)
    requires text != [] && AllDigits(text)
    ensures PyInt(text) == Ok(DigitsValue(text))
  {
    DigitsNotSpace(text);
    Unstripped(text);
    DropNoUnderscores(text);
    assert text[0] != '+' && text[0] != '-';
    assert ReadSigned(text) == Some(DigitsValue(text) as int);
  }

  /** Digit text neither begins nor ends with white space, and is a grouped number of one group. */
  lemma DigitsNotSpace(s: string)
    requires s != [] && AllDigits(s)
    ensures !IsIntSpace(s[0]) && !IsIntSpace(s[|s| - 1]) && DigitGroups(s)
  {
  }

  /** Every character is white space. */
  predicate AllIntSpace(s: string)
  {
    forall i :: 0 <= i < |s| ==> IsIntSpace(s[i])
  }

  /** Leading white space is stripped up to the first other character. */
  lemma {:induction false} StripStartSkips(pre: string, s: string)
    requires AllIntSpace(pre) && (s == [] || !IsIntSpace(s[0]))
    ensures StripStart(pre + s) == s
    decreases |pre|
  {
    if pre == [] {
      assert pre + s == s;
    } else {
      assert (pre + s)[1..] == pre[1..] + s;
      StripStartSkips(pre[1..], s);
    }
  }

  /** Trailing white space is stripped back to the last other character. */
  lemma {:induction false} StripEndSkips(s: string, post: string)
    requires AllIntSpace(post) && (s == [] || !IsIntSpace(s[|s| - 1]))
    ensures StripEnd(s + post) == s
    decreases |post|
  {
    if post == [] {
      assert s + post == s;
    } else {
      assert (s + post)[..|s + post| - 1] == s + post[..|post| - 1];
      StripEndSkips(s, post[..|post| - 1]);
    }
  }

  /** White space around the number is skipped. */
  lemma PyIntPadded(pre: string, digits: string, post: string)
    requires AllIntSpace(pre) && AllIntSpace(post) && digits != [] && AllDigits(digits)
    ensures PyInt(pre + digits + post) == Ok(DigitsValue(digits))
  {
    DigitsNotSpace(digits);
    StripEndSkips(digits, post);
    assert pre + digits + post == pre + (digits + post);
    StripStartSkips(pre, digits + post);
    assert StripEnd(StripStart(pre + digits + post)) == StripEnd(StripStart(digits));
    PyIntDigits(digits);
  }

  /** A leading `+` keeps the number and a leading `-` negates it. */
  lemma PyIntSigned(digits: string)
    requires digits != [] && AllDigits(digits)
    ensures PyInt("+" + digits) == Ok(DigitsValue(digits))
    ensures PyInt("-" + digits) == Ok(-(DigitsValue(digits) as int))
  {
    DigitsNotSpace(digits);
    DropNoUnderscores(digits);
    SignedRead('+', digits);
    SignedRead('-', digits);
  }

  /** A sign before plain digits: the number with that sign. */
  lemma SignedRead(sign: char, digits: string)
    requires sign == '+' || sign == '-'
    requires digits != [] && AllDigits(digits) && DigitGroups(digits) && DropUnderscores(digits) == digits
    ensures PyInt([sign] + digits) == Ok(if sign == '-' then -(DigitsValue(digits) as int) else DigitsValue(digits))
  {
    var t := [sign] + digits;
    assert t[0] == sign && t[|t| - 1] == digits[|digits| - 1];
    Unstripped(t);
    assert t[1..] == digits;
  }

  /** Text from a digit to a digit is read without stripping or sign: grouped digits or an error. */
  lemma PyIntUnsigned(t: string)
    requires t != [] && IsDigit(t[0]) && IsDigit(t[|t| - 1])
    ensures PyInt(t) == if DigitGroups(t) then Ok(DigitsValue(DropUnderscores(t)) as int) else Err(NotAnInteger(t))
  {
    Unstripped(t);
    assert t[0] != '+' && t[0] != '-';
    if DigitGroups(t) {
      assert ReadSigned(t) == Some(DigitsValue(DropUnderscores(t)) as int);
    } else {
      assert ReadSigned(t) == None;
    }
  }

  /** Two digit groups joined by one underscore form a grouped number. */
  lemma GroupedDigits(a: string, b: string)
    requires a != [] && AllDigits(a) && b != [] && AllDigits(b)
    ensures var s := a + "_" + b; s[0] == a[0] && s[|s| - 1] == b[|b| - 1] && DigitGroups(s)
  {
    var s := a + "_" + b;
    forall i | 0 <= i < |s| - 1 && s[i] == '_'
      ensures s[i + 1] != '_'
    {
      assert i == |a|;
    }
  }

  /** Leading digits pass through unchanged. */
  lemma {:induction false} DropAfterDigits(a: string, rest: string)
    requires AllDigits(a)
    requires forall i :: 0 <= i < |rest| ==> IsDigit(rest[i]) || rest[i] == '_'
    ensures forall i :: 0 <= i < |a + rest| ==> IsDigit((a + rest)[i]) || (a + rest)[i] == '_'
    ensures DropUnderscores(a + rest) == a + DropUnderscores(rest)
    decreases |a|
  {
    if a != [] {
      assert (a + rest)[1..] == a[1..] + rest;
      DropAfterDigits(a[1..], rest);
    } else {
      assert a + rest == rest;
    }
  }

  /** Dropping the joining underscore leaves the two groups side by side. */
  lemma GroupedDrop(a: string, b: string)
    requires AllDigits(a) && AllDigits(b)
    ensures DropUnderscores(a + "_" + b) == a + b
  {
    var rest := "_" + b;
    assert rest[1..] == b;
    DropNoUnderscores(b);
    assert DropUnderscores(rest) == b;
    DropAfterDigits(a, rest);
    assert a + "_" + b == a + rest;
  }

  /** One underscore between two groups of digits is read as if it were absent. */
  lemma PyIntGrouped(a: string, b: string)
    requires a != [] && AllDigits(a) && b != [] && AllDigits(b)
    ensures PyInt(a + "_" + b) == Ok(DigitsValue(a + b))
  {
    GroupedDigits(a, b);
    GroupedDrop(a, b);
    PyIntUnsigned(a + "_" + b);
  }

  /** Two underscores in a row, a leading underscore and a sign without digits are refused. */
  lemma PyIntRefuses(a: string, b: string)
    requires a != [] && AllDigits(a) && b != [] && AllDigits(b)
    ensures PyInt(a + "__" + b) == Err(NotAnInteger(a + "__" + b))
    ensures PyInt("_" + b) == Err(NotAnInteger("_" + b))
    ensures PyInt("+") == Err(NotAnInteger("+")) && PyInt("") == Err(NotAnInteger(""))
  {
    var s := a + "__" + b;
    assert s[0] == a[0] && s[|s| - 1] == b[|b| - 1];
    assert s[|a|] == '_' && s[|a| + 1] == '_';
    assert !DigitGroups(s);
    PyIntUnsigned(s);
    var u := "_" + b;
    assert u[0] == '_' && u[|u| - 1] == b[|b| - 1];
    PyIntRefusesNonDigit(u);
    PyIntRefusesLoneSign();
  }

  /** A sign with no digits after it, and the empty text, are refused. */
  lemma PyIntRefusesLoneSign()
    ensures PyInt("+") == Err(NotAnInteger("+")) && PyInt("") == Err(NotAnInteger(""))
  {
    var plus := "+";
    assert |plus| == 1 && plus[0] == '+';
    assert StripEnd(StripStart(plus)) == plus by {
      Unstripped(plus);
    }
    assert !DigitGroups(plus[1..]);
    assert ReadSigned(plus) == None;
    var empty: string := [];
    assert StripEnd(StripStart(empty)) == empty;
    assert ReadSigned(empty) == None;
  }

  /** An information separator before the digits is not white space to `int`: the text is refused. */
  lemma PyIntRefusesSeparator(digits: string)
    requires digits != [] && AllDigits(digits)
    ensures PyInt("\U{1C}" + digits) == Err(NotAnInteger("\U{1C}" + digits))
  {
    var t := "\U{1C}" + digits;
    assert t[0] == '\U{1C}' && t[|t| - 1] == digits[|digits| - 1];
    PyIntRefusesNonDigit(t);
  }

  /** Text that starts with a character neither white space, sign nor digit is refused. */
  lemma PyIntRefusesNonDigit(t: string)
    requires t != [] && !IsIntSpace(t[0]) && !IsIntSpace(t[|t| - 1])
    requires !IsDigit(t[0]) && t[0] != '+' && t[0] != '-'
    ensures PyInt(t) == Err(NotAnInteger(t))
  {
    assert !DigitGroups(t);
    assert ReadSigned(t) == None;
    Unstripped(t);
  }

  /** `d[key]` on a dictionary of strings. */
  function Lookup(d: map<string, string>, key: string): Result<string, CopyError>
  {
    if key in d then Ok(d[key]) else Err(MissingKey(key))
  }

  /** The album directory: `dest/artist/"year - album"`. */
  function AlbumDir(dest: Path, common: map<string, string>): Result<Path, CopyError>
  {
    match Lookup(common, "artist")
    case Err(e) => Err(e)
    case Ok(artist) =>
      match Lookup(common, "year")
      case Err(e) => Err(e)
      case Ok(year) =>
        match Lookup(common, "album")
        case Err(e) => Err(e)
        case Ok(album) => Ok(dest + [artist, year + " - " + album])
  }

  /** The copied file's name: `"{disc}-{track} - {title}.mp3"` on a multi-disc album, else `"{track} - {title}.mp3"`. */
  function CopyName(common: map<string, string>, tags: map<string, string>): Result<string, CopyError>
  {
    match Lookup(common, "total_discs")
    case Err(e) => Err(e)
    case Ok(discsText) =>
      match PyInt(discsText)
      case Err(e) => Err(e)
      case Ok(discs) =>
        var number :=
          if discs > 1 then
            (match Lookup(tags, "disc_number")
             case Err(e) => Err(e)
             case Ok(disc) =>
               match Lookup(tags, "track_number")
               case Err(e) => Err(e)
               case Ok(track) => Ok(disc + "-" + track))
          else Lookup(tags, "track_number");
        match number
        case Err(e) => Err(e)
        case Ok(n) =>
          match Lookup(tags, "title")
          case Err(e) => Err(e)
          case Ok(title) => Ok(n + " - " + title + ".mp3")
  }

  /**
   * With every key present and a readable disc count, the name is the number part, `" - "`, the
   * title and `.mp3`; the number part is `disc-track` exactly when there is more than one disc.
   */
  lemma CopyNameParts(common: map<string, string>, tags: map<string, string>)
    requires "total_discs" in common && PyInt(common["total_discs"]).Ok?
    requires "disc_number" in tags && "track_number" in tags && "title" in tags
    ensures var number := if PyInt(common["total_discs"]).value > 1 then tags["disc_number"] + "-" + tags["track_number"] else tags["track_number"];
      CopyName(common, tags) == Ok(number + " - " + tags["title"] + ".mp3")
  {
  }

  /** The copies made for the files `srcs` into `dir`, in order: each copy's path mapped to the file's tags, or the first error. */
  function PlanCopies(dir: Path, common: map<string, string>, srcs: seq<Path>, tags: map<Path, map<string, string>>): Result<map<Path, map<string, string>>, CopyError>
    requires forall s :: s in srcs ==> s in tags
    decreases |srcs|
  {
    if srcs == [] then Ok(map[])
    else
      match PlanCopies(dir, common, srcs[..|srcs| - 1], tags)
      case Err(e) => Err(e)
      case Ok(done) =>
        match CopyName(common, tags[srcs[|srcs| - 1]])
        case Err(e) => Err(e)
        case Ok(name) => Ok(done[dir + [name] := tags[srcs[|srcs| - 1]]])
  }

  /** One more file named: its copy joins the copies made so far. */
  lemma PlanCopiesStep(dir: Path, common: map<string, string>, srcs: seq<Path>, tags: map<Path, map<string, string>>,
                       i: nat, done: map<Path, map<string, string>>)
    requires forall s :: s in srcs ==> s in tags
    requires i < |srcs| && PlanCopies(dir, common, srcs[..i], tags) == Ok(done)
    requires CopyName(common, tags[srcs[i]]).Ok?
    ensures PlanCopies(dir, common, srcs[..i + 1], tags) == Ok(done[dir + [CopyName(common, tags[srcs[i]]).value] := tags[srcs[i]]])
  {
    assert srcs[..i + 1][..i] == srcs[..i];
  }

  /** What `copy_files` returns for the edited tags: the album directory first, then the copies. */
  function CopyPlan(dest: Path, common: map<string, string>, itemsTags: OrderedMap<Path, map<string, string>>): Result<map<Path, map<string, string>>, CopyError>
    requires forall s :: s in itemsTags.keys ==> s in itemsTags.entries
  {
    match AlbumDir(dest, common)
    case Err(e) => Err(e)
    case Ok(dir) => PlanCopies(dir, common, itemsTags.keys, itemsTags.entries)
  }

  /** A failure among the first files is the failure of the whole run. */
  lemma {:induction false} PlanCopiesStops(dir: Path, common: map<string, string>, srcs: seq<Path>, tags: map<Path, map<string, string>>, i: nat)
    requires forall s :: s in srcs ==> s in tags
    requires i <= |srcs| && PlanCopies(dir, common, srcs[..i], tags).Err?
    ensures PlanCopies(dir, common, srcs, tags) == PlanCopies(dir, common, srcs[..i], tags)
    decreases |srcs|
  {
    if i < |srcs| {
      assert srcs[..|srcs| - 1][..i] == srcs[..i];
      PlanCopiesStops(dir, common, srcs[..|srcs| - 1], tags, i);
    } else {
      assert srcs[..i] == srcs;
    }
  }

  /**
   * `copy_files`: the album directory `dest/artist/"year - album"`, then for each file in order
   * its copy `"{number} - {title}.mp3"` in that directory, mapped to the file's tags.
   */
  method CopyFiles(dest: Path, common: map<string, string>, itemsTags: OrderedMap<Path, map<string, string>>)
    returns (r: Result<map<Path, map<string, string>>, CopyError>)
    requires forall s :: s in itemsTags.keys ==> s in itemsTags.entries
    ensures r == CopyPlan(dest, common, itemsTags)
  {
    var dir := AlbumDir(dest, common);
    if dir.Err? {
      return Err(dir.error);
    }
    var srcs := itemsTags.keys;
    var result := map[];
    for i := 0 to |srcs|
      invariant PlanCopies(dir.value, common, srcs[..i], itemsTags.entries) == Ok(result)
    {
      var tags := itemsTags.entries[srcs[i]];
      assert srcs[..i + 1][..i] == srcs[..i];
      var name := CopyName(common, tags);
      if name.Err? {
        PlanCopiesStops(dir.value, common, srcs, itemsTags.entries, i + 1);
        return Err(name.error);
      }
      PlanCopiesStep(dir.value, common, srcs, itemsTags.entries, i, result);
      result := result[dir.value + [name.value] := tags];
    }
    assert srcs[..|srcs|] == srcs;
    r := Ok(result);
  }

  /**
   * The copies succeed exactly when every file gets a name; then every copy lies in the album
   * directory, every file has its copy there, and each copy carries the tags of a file named so.
   */
  lemma {:induction false} PlanCopiesPlaces(dir: Path, common: map<string, string>, srcs: seq<Path>, tags: map<Path, map<string, string>>)
    requires forall s :: s in srcs ==> s in tags
    ensures PlanCopies(dir, common, srcs, tags).Ok? <==> forall s :: s in srcs ==> CopyName(common, tags[s]).Ok?
    ensures PlanCopies(dir, common, srcs, tags).Ok? ==>
      var copies := PlanCopies(dir, common, srcs, tags).value;
      && (forall s :: s in srcs ==> dir + [CopyName(common, tags[s]).value] in copies)
      && (forall p :: p in copies ==> exists s :: s in srcs && p == dir + [CopyName(common, tags[s]).value] && copies[p] == tags[s])
    decreases |srcs|
  {
    if srcs != [] {
      var front := srcs[..|srcs| - 1];
      var last := srcs[|srcs| - 1];
      assert forall s :: s in srcs <==> s in front || s == last;
      PlanCopiesPlaces(dir, common, front, tags);
    }
  }

  /**
   * The album directory is built before any file is looked at: a missing `artist`, `year` or
   * `album` (asked for in that order) is the run's error, whatever the files.
   */
  lemma CopyPlanMissingKey(dest: Path, common: map<string, string>, itemsTags: OrderedMap<Path, map<string, string>>)
    requires forall s :: s in itemsTags.keys ==> s in itemsTags.entries
    ensures "artist" !in common ==> CopyPlan(dest, common, itemsTags) == Err(MissingKey("artist"))
    ensures "artist" in common && "year" !in common ==> CopyPlan(dest, common, itemsTags) == Err(MissingKey("year"))
    ensures "artist" in common && "year" in common && "album" !in common ==> CopyPlan(dest, common, itemsTags) == Err(MissingKey("album"))
  {
  }

  /**
   * With the album keys present, the run succeeds exactly when every file's name can be made,
   * and then each copy lies directly in `dest/artist/"year - album"` under its file's name and
   * carries that file's tags.
   */
  lemma CopyPlanPlaces(dest: Path, common: map<string, string>, itemsTags: OrderedMap<Path, map<string, string>>)
    requires forall s :: s in itemsTags.keys ==> s in itemsTags.entries
    requires "artist" in common && "year" in common && "album" in common
    ensures CopyPlan(dest, common, itemsTags).Ok? <==>
      forall s :: s in itemsTags.keys ==> CopyName(common, itemsTags.entries[s]).Ok?
    ensures CopyPlan(dest, common, itemsTags).Ok? ==>
      var copies := CopyPlan(dest, common, itemsTags).value;
      forall p :: p in copies ==>
        exists s :: (s in itemsTags.keys
          && p == dest + [common["artist"], common["year"] + " - " + common["album"], CopyName(common, itemsTags.entries[s]).value]
          && copies[p] == itemsTags.entries[s])
  {
    var dir := dest + [common["artist"], common["year"] + " - " + common["album"]];
    assert AlbumDir(dest, common) == Ok(dir);
    PlanCopiesPlaces(dir, common, itemsTags.keys, itemsTags.entries);
    forall s | s in itemsTags.keys && CopyName(common, itemsTags.entries[s]).Ok?
      ensures dir + [CopyName(common, itemsTags.entries[s]).value]
        == dest + [common["artist"], common["year"] + " - " + common["album"], CopyName(common, itemsTags.entries[s]).value]
    {
    }
  }
}
