/** The SIFT extractor of the development version of VLFeat (`siftvlfeat2.py`): the same
    conversion to Lowe's format as `siftvlfeat.py`, with different file names, all built
    from the photo's full file name. */
module SiftVlfeatDev {
  import opened Text
  import opened LoweFormat
  import SiftVlfeat

  /** The names: `"%s.jpg.pgm" % photo`, `"%s.key" % photo` and `"%s.key.gz" % photo`. */
  function FilesFor(photo: string): SiftVlfeat.Files
  {
    SiftVlfeat.Files(photo + ".jpg.pgm", photo + ".key", photo + ".key.gz")
  }

  /** The grey image this extractor reads is never the one `process_photos` writes
      (`"%s.pgm" % photo`), and for a photo with a four-character extension such as
      `.jpg` its Lowe file is not the one `siftvlfeat.py` writes: the `.jpg` stays in the
      name. */
  lemma NamesDiffer(photo: string)
    ensures FilesFor(photo).pgm != photo + ".pgm"
    ensures |photo| >= 4 ==> FilesFor(photo).lowe != SiftVlfeat.FilesFor(photo).lowe
  {
    assert |FilesFor(photo).pgm| != |photo + ".pgm"|;
    if |photo| >= 4 {
      assert |FilesFor(photo).lowe| != |SiftVlfeat.FilesFor(photo).lowe|;
    }
  }

  /** `extract(photo, photoInfo)` once the executable has written `keyLines`: the
      conversion is the one of `siftvlfeat.py`. */
  method Extract(photo: string, keyLines: seq<string>) returns (files: SiftVlfeat.Files, lowe: seq<string>, removed: bool)
    ensures files == FilesFor(photo)
    ensures var tss := SplitLines(keyLines);
      && (removed <==> Swappable(tss))
      && lowe == [Header(|keyLines|)] + Concat(RecordLines, tss[..FirstShort(tss, 0)])
  {
    files := FilesFor(photo);
    lowe, removed := Convert(keyLines);
  }
}
