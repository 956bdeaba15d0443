/** The SIFT extractor of the VLFeat library (`siftvlfeat.py`): the executable writes its
    keypoints as text next to the photo, and `extract` converts that file into a gzipped
    keypoint file in Lowe's format, then removes the text file. Running the executable,
    reading and writing the files and gzip are left to the caller: the lines of the text
    file come in as a parameter and the lines of the Lowe file go out. */
module SiftVlfeat {
  import opened Text
  import opened LoweFormat
  import opened Bundling

  /** The files `extract(photo, …)` uses: the grey image the executable reads, the text
      file it writes and the Lowe file. */
  datatype Files = Files(pgm: string, text: string, lowe: string)

  /** The names, from the photo's file name: `"%s.pgm" % photo`, and `photo[:-4]` with
      `.key` and `.key.gz`. */
  function FilesFor(photo: string): Files
  {
    var stem := DropLast4(photo);
    Files(photo + ".pgm", stem + ".key", stem + ".key.gz")
  }

  /** For a frame photo, the executable reads the grey copy `process_photos` writes
      (`"%s.pgm" % p`), the Lowe file is named after the frame digits, it is the file the
      feature list names when the extractor's extension is `key.gz`, and the text file
      that is removed afterwards is not the Lowe file. */
  lemma FrameFiles(i: nat)
    ensures var f := FilesFor(FrameName(i));
      && f.pgm == FrameName(i) + ".pgm"
      && f.lowe == ZeroPad8(i) + ".key.gz"
      && f.lowe == FeatureLine(FeatureEntry(DropLast4(FrameName(i)), "key.gz"))
      && f.text != f.lowe
  {
    var f := FilesFor(FrameName(i));
    FrameFeatureLine(i, "key.gz");
    assert DropLast4(FrameName(i)) == ZeroPad8(i);
    assert |f.text| != |f.lowe|;
  }

  /** `extract(photo, photoInfo)` once the executable has written `keyLines`: the Lowe
      file's lines, and whether the text file is removed, which happens only when the
      conversion does not raise. */
  method Extract(photo: string, keyLines: seq<string>) returns (files: Files, lowe: seq<string>, removed: bool)
    ensures files == FilesFor(photo)
    ensures var tss := SplitLines(keyLines);
      && (removed <==> Swappable(tss))
      && lowe == [Header(|keyLines|)] + Concat(RecordLines, tss[..FirstShort(tss, 0)])
  {
    files := FilesFor(photo);
    lowe, removed := Convert(keyLines);
  }
}
