/** `ImageDownloader` of scraper/image_downloader.py, and the download loop of
    scrape_and_save.py that drives it.

    The image directory is abstract: the output directory's path and, for
    each category sub-directory that exists, the names of the files in it.
    The HTTP download is an oracle on `(url, timeout)` that says whether a
    2xx response arrived; file contents are not modelled. */
module ImageDownloader {
  import opened Options
  import opened Text

  datatype Store = Store(outputDir: string, dirs: map<string, set<string>>)

  /** The files of a category directory; a missing directory holds none. */
  function Files(s: Store, category: string): set<string>
  {
    if category in s.dirs then s.dirs[category] else {}
  }

  /** `(output_dir / category).mkdir(exist_ok=True)`. */
  function EnsureDir(s: Store, category: string): (r: Store)
    ensures r.outputDir == s.outputDir
    ensures category in r.dirs
    ensures forall c :: c in s.dirs ==> c in r.dirs
    ensures forall c :: c != category ==> (c in r.dirs <==> c in s.dirs)
    ensures forall c :: Files(r, c) == Files(s, c)
  {
    if category in s.dirs then s else s.(dirs := s.dirs[category := {}])
  }

  /** `str(output_dir / category / filename)`. */
  function FilePath(outputDir: string, category: string, filename: string): string
  {
    outputDir + "/" + category + "/" + filename
  }

  /** The names the pattern `*.<ext>` matches: those ending in `.<ext>`. */
  function Matching(files: set<string>, ext: string): (r: set<string>)
    ensures r <= files
    ensures forall f :: f in files && EndsWith(f, "." + ext) ==> f in r
    ensures forall f :: f in r ==> EndsWith(f, "." + ext)
  {
    set f | f in files && EndsWith(f, "." + ext)
  }

  /** `f"{category}_{n}.{extension}"`. */
  function FileName(category: string, n: nat, ext: string): (r: string)
    ensures EndsWith(r, "." + ext)
  {
    var r := category + "_" + NatToString(n) + "." + ext;
    assert r[|r| - |ext| - 1..] == "." + ext;
    r
  }

  datatype Named = Named(name: string, store: Store)

  /** `get_next_filename`: one more than the number of `.<ext>` files of the
      category, the directory created if missing, and no file added. */
  function GetNextFilename(s: Store, category: string, extension: string := "jpg"): (r: Named)
    ensures r.store == EnsureDir(s, category)
    ensures forall c :: Files(r.store, c) == Files(s, c)
    ensures EndsWith(r.name, "." + extension)
  {
    Named(FileName(category, |Matching(Files(s, category), extension)| + 1, extension), EnsureDir(s, category))
  }

  /** Whether `requests.get(url, timeout=timeout)` returns without raising
      and passes `raise_for_status`. */
  type Downloader = (string, int) -> bool

  datatype Saved = Saved(path: Option<string>, store: Store)

  /** `download_and_save`. The category directory is created before the
      request, so it exists afterwards whatever the outcome; the file is
      written only after a successful response. */
  function DownloadAndSave(s: Store, download: Downloader, url: string, category: string,
                           filename: string, timeout: int := 10): (r: Saved)
    ensures r.store.outputDir == s.outputDir
    ensures category in r.store.dirs
    ensures forall c :: c in s.dirs ==> c in r.store.dirs
    ensures forall c :: c != category ==> (c in r.store.dirs <==> c in s.dirs)
    ensures forall c :: c != category ==> Files(r.store, c) == Files(s, c)
    ensures download(url, timeout) ==>
              && r.path == Some(FilePath(s.outputDir, category, filename))
              && Files(r.store, category) == Files(s, category) + {filename}
    ensures !download(url, timeout) ==> r.path.None? && Files(r.store, category) == Files(s, category)
  {
    var s1 := EnsureDir(s, category);
    if download(url, timeout) then
      Saved(Some(FilePath(s.outputDir, category, filename)),
            s1.(dirs := s1.dirs[category := s1.dirs[category] + {filename}]))
    else Saved(None, s1)
  }

  /** `get_download_count`: 0 without the directory, otherwise the number of
      names matching `*.*`, whatever their extension. */
  function GetDownloadCount(s: Store, category: string): (n: nat)
    ensures category !in s.dirs ==> n == 0
    ensures n <= |Files(s, category)|
    ensures n == |Files(s, category)| - |set f | f in Files(s, category) && '.' !in f|
  {
    if category !in s.dirs then 0
    else
      var files := s.dirs[category];
      var dotted := set f | f in files && '.' in f;
      var plain := set f | f in files && '.' !in f;
      assert files == dotted + plain && dotted !! plain;
      |dotted|
  }

  lemma SubsetCard<T>(a: set<T>, b: set<T>)
    requires a <= b
    ensures |a| <= |b|
  {
    assert b == a + (b - a);
  }

  /** Every file `get_next_filename` counts is also counted by
      `get_download_count`. */
  lemma DownloadCountCoversMatching(s: Store, category: string, ext: string)
    ensures |Matching(Files(s, category), ext)| <= GetDownloadCount(s, category)
  {
    if category in s.dirs {
      var dotted := set f | f in s.dirs[category] && '.' in f;
      forall f | f in Matching(Files(s, category), ext)
        ensures f in dotted
      {
        assert f[|f| - |ext| - 1] == '.';
      }
      SubsetCard(Matching(Files(s, category), ext), dotted);
    }
  }

  /** The name `get_next_filename` offers carries number k exactly when k is
      one more than the number of `.<ext>` files already there. */
  lemma NextNameNumber(s: Store, category: string, ext: string, k: nat)
    ensures GetNextFilename(s, category, ext).name == FileName(category, k, ext)
            <==> k == |Matching(Files(s, category), ext)| + 1
  {
    var n := |Matching(Files(s, category), ext)| + 1;
    if GetNextFilename(s, category, ext).name == FileName(category, k, ext) {
      FileNameInjective(category, ext, n, k);
    }
  }

  /** Numbered names of distinct numbers differ. */
  lemma FileNameInjective(category: string, ext: string, m: nat, n: nat)
    requires FileName(category, m, ext) == FileName(category, n, ext)
    ensures m == n
  {
    var a, b := FileName(category, m, ext), FileName(category, n, ext);
    var dm, dn := NatToString(m), NatToString(n);
    assert |dm| == |dn|;
    assert a[|category| + 1..|category| + 1 + |dm|] == dm;
    assert b[|category| + 1..|category| + 1 + |dn|] == dn;
    NatToStringInjective(m, n);
  }

  /** `{category}_1.{ext}`, ..., `{category}_{n}.{ext}`. */
  function NumberedNames(category: string, ext: string, n: nat): set<string>
    decreases n
  {
    if n == 0 then {} else NumberedNames(category, ext, n - 1) + {FileName(category, n, ext)}
  }

  /** A numbered name is among the names up to `n` exactly when its number
      is between 1 and `n`. */
  lemma {:induction false} NumberedNamesMembers(category: string, ext: string, n: nat, k: nat)
    ensures FileName(category, k, ext) in NumberedNames(category, ext, n) <==> 1 <= k <= n
    decreases n
  {
    if n > 0 {
      NumberedNamesMembers(category, ext, n - 1, k);
      if FileName(category, k, ext) == FileName(category, n, ext) {
        FileNameInjective(category, ext, k, n);
      }
    }
  }

  /** The numbered names up to `n` are `n` distinct names. */
  lemma {:induction false} NumberedNamesCount(category: string, ext: string, n: nat)
    ensures |NumberedNames(category, ext, n)| == n
    decreases n
  {
    if n > 0 {
      NumberedNamesCount(category, ext, n - 1);
      NumberedNamesMembers(category, ext, n - 1, n);
    }
  }

  /** Every numbered name carries the extension. */
  lemma {:induction false} NumberedNamesMatch(category: string, ext: string, n: nat)
    ensures Matching(NumberedNames(category, ext, n), ext) == NumberedNames(category, ext, n)
    decreases n
  {
    if n > 0 {
      NumberedNamesMatch(category, ext, n - 1);
    }
  }

  /** In a directory holding exactly the numbered names 1..n, the next name is
      number n + 1, and it is not yet taken. */
  lemma NextNameFresh(s: Store, category: string, ext: string, n: nat)
    requires Files(s, category) == NumberedNames(category, ext, n)
    ensures GetNextFilename(s, category, ext).name == FileName(category, n + 1, ext)
    ensures GetNextFilename(s, category, ext).name !in Files(s, category)
  {
    var files := Files(s, category);
    NumberedNamesMatch(category, ext, n);
    NumberedNamesCount(category, ext, n);
    assert |Matching(files, ext)| == n;
    NumberedNamesMembers(category, ext, n, n + 1);
  }

  /** With a gap in the numbering the next name can already be taken, and a
      successful download then overwrites that file: a directory holding
      only `{category}_2.jpg` is offered `{category}_2.jpg` again. */
  lemma GapReusesName(outputDir: string, category: string)
    ensures var s := Store(outputDir, map[category := {FileName(category, 2, "jpg")}]);
            GetNextFilename(s, category).name in Files(s, category)
  {
    var s := Store(outputDir, map[category := {FileName(category, 2, "jpg")}]);
    assert Matching(Files(s, category), "jpg") == {FileName(category, 2, "jpg")};
  }

  /** A directory holding exactly the numbered files 1..k counts k
      downloads. */
  lemma DownloadCountOfNumbered(s: Store, category: string, k: nat)
    requires Files(s, category) == NumberedNames(category, "jpg", k)
    ensures GetDownloadCount(s, category) == k
  {
    NumberedNamesCount(category, "jpg", k);
    NumberedNamesMatch(category, "jpg", k);
    DownloadCountCoversMatching(s, category, "jpg");
  }

  // ---------------------------------------------------- the download loop

  /** The values of the `Some` entries, in order. */
  function SavedPaths(paths: seq<Option<string>>): (r: seq<string>)
    ensures |r| <= |paths|
  {
    if paths == [] then []
    else (if paths[0].Some? then [paths[0].value] else []) + SavedPaths(paths[1..])
  }

  lemma SavedPathsCons(p: Option<string>, rest: seq<Option<string>>)
    ensures SavedPaths([p] + rest) == (if p.Some? then [p.value] else []) + SavedPaths(rest)
  {
    assert ([p] + rest)[1..] == rest;
  }

  datatype Session = Session(store: Store, paths: seq<Option<string>>)

  /** A loop applying `round` to each URL in turn, threading the directory. */
  function SaveLoop(s: Store, round: (Store, string) -> Saved, urls: seq<string>): (r: Session)
    ensures |r.paths| == |urls|
    decreases |urls|
  {
    if urls == [] then Session(s, [])
    else
      var step := round(s, urls[0]);
      var rest := SaveLoop(step.store, round, urls[1..]);
      Session(rest.store, [step.path] + rest.paths)
  }

  /** One round of the loop of scrape_and_save.py: the next file name of the
      category (extension "jpg"), then the download under that name. */
  function SaveOne(s: Store, download: Downloader, category: string, url: string): (r: Saved)
    ensures r.store.outputDir == s.outputDir
    ensures category in r.store.dirs
    ensures forall c :: c != category ==> (c in r.store.dirs <==> c in s.dirs)
    ensures forall c :: c != category ==> Files(r.store, c) == Files(s, c)
    ensures var name := FileName(category, |Matching(Files(s, category), "jpg")| + 1, "jpg");
            && (download(url, 10) ==>
                  r.path == Some(FilePath(s.outputDir, category, name)) && Files(r.store, category) == Files(s, category) + {name})
            && (!download(url, 10) ==> r.path.None? && Files(r.store, category) == Files(s, category))
  {
    var named := GetNextFilename(s, category);
    DownloadAndSave(named.store, download, url, category, named.name)
  }

  function Round(download: Downloader, category: string): (Store, string) -> Saved
  {
    (st, url) => SaveOne(st, download, category, url)
  }

  /** The loop of scrape_and_save.py over the image URLs of one category. */
  function SaveAll(s: Store, download: Downloader, category: string, urls: seq<string>): (r: Session)
    ensures |r.paths| == |urls|
  {
    SaveLoop(s, Round(download, category), urls)
  }

  /** The numbered names 1..k of a category, as a function of k. */
  function NumberedSet(category: string): nat -> set<string>
  {
    (k: nat) => NumberedNames(category, "jpg", k)
  }

  /** The path of numbered file k of a category, as a function of k. */
  function NumberedPath(outputDir: string, category: string): nat -> string
  {
    (k: nat) => FilePath(outputDir, category, FileName(category, k, "jpg"))
  }

  /** `pathOf(from)`, `pathOf(from + 1)`, ..., `count` of them. */
  function PathsFrom(pathOf: nat -> string, from: nat, count: nat): (r: seq<string>)
    ensures |r| == count
    decreases count
  {
    if count == 0 then [] else [pathOf(from)] + PathsFrom(pathOf, from + 1, count - 1)
  }

  lemma {:induction false} PathsFromAt(pathOf: nat -> string, from: nat, count: nat, i: nat)
    requires i < count
    ensures PathsFrom(pathOf, from, count)[i] == pathOf(from + i)
    decreases count
  {
    if i > 0 {
      PathsFromAt(pathOf, from + 1, count - 1, i - 1);
    }
  }

  /** What one round does to a directory holding `names(k)` under
      `outputDir`: a save adds number k + 1 and reports `pathOf(k + 1)`, a
      failure changes no file. */
  ghost predicate RoundNumbers(round: (Store, string) -> Saved, names: nat -> set<string>,
                               pathOf: nat -> string, category: string, outputDir: string,
                               st: Store, url: string, k: nat)
  {
    st.outputDir == outputDir && Files(st, category) == names(k) ==>
      var step := round(st, url);
      && step.store.outputDir == outputDir
      && (step.path.Some? ==> step.path.value == pathOf(k + 1) && Files(step.store, category) == names(k + 1))
      && (step.path.None? ==> Files(step.store, category) == names(k))
  }

  /** One round of the loop on a directory numbered 1..n: a successful
      download saves number n + 1, a failed one changes no file. */
  lemma SaveStep(s: Store, download: Downloader, category: string, url: string, n: nat)
    requires Files(s, category) == NumberedNames(category, "jpg", n)
    ensures var step := SaveOne(s, download, category, url);
            && step.store.outputDir == s.outputDir
            && (download(url, 10) ==>
                  && step.path == Some(FilePath(s.outputDir, category, FileName(category, n + 1, "jpg")))
                  && Files(step.store, category) == NumberedNames(category, "jpg", n + 1))
            && (!download(url, 10) ==>
                  step.path.None? && Files(step.store, category) == NumberedNames(category, "jpg", n))
  {
    NextNameFresh(s, category, "jpg", n);
  }

  lemma SaveOneNumbers(download: Downloader, category: string, outputDir: string)
    ensures forall st: Store, url: string, k: nat ::
              RoundNumbers(Round(download, category), NumberedSet(category), NumberedPath(outputDir, category),
                           category, outputDir, st, url, k)
  {
    forall st: Store, url: string, k: nat
      ensures RoundNumbers(Round(download, category), NumberedSet(category), NumberedPath(outputDir, category),
                           category, outputDir, st, url, k)
    {
      if st.outputDir == outputDir && Files(st, category) == NumberedNames(category, "jpg", k) {
        SaveStep(st, download, category, url, k);
      }
    }
  }

  /** The loop keeps the numbering: from `names(n)` it leaves `names(n + m)`,
      where m is the number of saves, and the saved paths are
      `pathOf(n + 1)`, ..., `pathOf(n + m)` in order. */
  lemma {:induction false} SaveLoopNumbers(s: Store, round: (Store, string) -> Saved, names: nat -> set<string>,
                                           pathOf: nat -> string, category: string, urls: seq<string>, n: nat)
    requires forall st: Store, url: string, k: nat ::
               RoundNumbers(round, names, pathOf, category, s.outputDir, st, url, k)
    requires Files(s, category) == names(n)
    ensures var r := SaveLoop(s, round, urls);
            var saved := SavedPaths(r.paths);
            && Files(r.store, category) == names(n + |saved|)
            && saved == PathsFrom(pathOf, n + 1, |saved|)
    decreases |urls|
  {
    if urls != [] {
      var step := round(s, urls[0]);
      assert RoundNumbers(round, names, pathOf, category, s.outputDir, s, urls[0], n);
      var rest := SaveLoop(step.store, round, urls[1..]);
      var r := SaveLoop(s, round, urls);
      assert r == Session(rest.store, [step.path] + rest.paths);
      SavedPathsCons(step.path, rest.paths);
      if step.path.Some? {
        SaveLoopNumbers(step.store, round, names, pathOf, category, urls[1..], n + 1);
      } else {
        SaveLoopNumbers(step.store, round, names, pathOf, category, urls[1..], n);
      }
    }
  }

  /** Starting from a directory numbered 1..n, whatever downloads succeed or
      fail, the directory stays numbered without gaps, and the saved files are
      numbers n + 1, n + 2, ... in order, so no save overwrites a file. */
  lemma SaveAllKeepsNumbering(s: Store, download: Downloader, category: string, urls: seq<string>, n: nat)
    requires Files(s, category) == NumberedNames(category, "jpg", n)
    ensures var r := SaveAll(s, download, category, urls);
            var saved := SavedPaths(r.paths);
            && Files(r.store, category) == NumberedNames(category, "jpg", n + |saved|)
            && forall i :: 0 <= i < |saved| ==>
                 saved[i] == FilePath(s.outputDir, category, FileName(category, n + 1 + i, "jpg"))
  {
    SaveOneNumbers(download, category, s.outputDir);
    var names, pathOf := NumberedSet(category), NumberedPath(s.outputDir, category);
    SaveLoopNumbers(s, Round(download, category), names, pathOf, category, urls, n);
    var saved := SavedPaths(SaveAll(s, download, category, urls).paths);
    forall i | 0 <= i < |saved|
      ensures saved[i] == FilePath(s.outputDir, category, FileName(category, n + 1 + i, "jpg"))
    {
      PathsFromAt(pathOf, n + 1, |saved|, i);
    }
  }

  /** After the loop, `get_download_count` is the number of files there
      before plus the number of successful downloads. */
  lemma SaveAllCount(s: Store, download: Downloader, category: string, urls: seq<string>, n: nat)
    requires Files(s, category) == NumberedNames(category, "jpg", n)
    ensures var r := SaveAll(s, download, category, urls);
            GetDownloadCount(r.store, category) == n + |SavedPaths(r.paths)|
  {
    SaveAllKeepsNumbering(s, download, category, urls, n);
    var r := SaveAll(s, download, category, urls);
    DownloadCountOfNumbered(r.store, category, n + |SavedPaths(r.paths)|);
  }

  /** Paths in one category directory differ when the file names do. */
  lemma FilePathInjective(outputDir: string, category: string, a: string, b: string)
    requires FilePath(outputDir, category, a) == FilePath(outputDir, category, b)
    ensures a == b
  {
    var prefix := outputDir + "/" + category + "/";
    assert FilePath(outputDir, category, a) == prefix + a;
    assert FilePath(outputDir, category, b) == prefix + b;
    assert a == (prefix + a)[|prefix|..];
    assert b == (prefix + b)[|prefix|..];
  }

  /** No two saves of one loop write the same file. */
  lemma SaveAllDistinct(s: Store, download: Downloader, category: string, urls: seq<string>, n: nat)
    requires Files(s, category) == NumberedNames(category, "jpg", n)
    ensures var saved := SavedPaths(SaveAll(s, download, category, urls).paths);
            forall i, j :: 0 <= i < j < |saved| ==> saved[i] != saved[j]
  {
    SaveAllKeepsNumbering(s, download, category, urls, n);
    var saved := SavedPaths(SaveAll(s, download, category, urls).paths);
    forall i, j | 0 <= i < j < |saved|
      ensures saved[i] != saved[j]
    {
      var a, b := FileName(category, n + 1 + i, "jpg"), FileName(category, n + 1 + j, "jpg");
      if saved[i] == saved[j] {
        FilePathInjective(s.outputDir, category, a, b);
        FileNameInjective(category, "jpg", n + 1 + i, n + 1 + j);
      }
    }
  }
}
