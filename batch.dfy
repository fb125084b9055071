/**
 * `find_and_upload_videos` and the per-file part of `edit_and_upload_video`: walk
 * the folders, pick the video files that have a sidecar text file beside them,
 * read title and keywords from it and upload the video. An HttpError that
 * escapes one upload is reported and the batch goes on with the next file; an
 * `exit(...)` inside an upload ends the whole batch.
 *
 * The file system is given as values: the folders `os.walk` visits, in its order,
 * each with its file names, and a map from each existing sidecar path to its text.
 * The YouTube API is given per video file as the oracles of `Upload`.
 */
module Batch {
  import opened Wrappers
  import opened Text
  import opened Metadata
  import opened UploadLoop

  /** One folder as `os.walk` yields it: its path and the names of the files in it. */
  datatype Folder = Folder(path: string, filenames: seq<string>)

  /** One file the walk comes across. */
  datatype Entry = Entry(folder: string, name: string)

  /** What the upload API does for one video file: the `next_chunk()` results and the playlist insert. */
  datatype World = World(chunks: seq<Chunk>, ins: InsertResult)

  /** One video the batch processed: its file, the metadata it was uploaded with and how the upload went. */
  datatype Item = Item(entry: Entry, video: string, title: string, keywords: string, tags: Option<seq<string>>, run: Run)

  /** The videos processed so far, and whether an upload ended the batch. */
  datatype Report = Report(items: seq<Item>, halted: bool)

  /** `os.path.join(a, b)` on POSIX paths. */
  function PathJoin(a: string, b: string): (r: string)
    ensures b != [] && b[0] == '/' ==> r == b
  {
    if b != [] && b[0] == '/' then b
    else if a == [] || a[|a| - 1] == '/' then a + b
    else a + "/" + b
  }

  /** A relative name is appended to the same folder prefix, whatever the name. */
  lemma PathJoinPrefix(a: string, b: string)
    requires b == [] || b[0] != '/'
    ensures PathJoin(a, b) == PathJoin(a, []) + b
  {
  }

  /** The video file and its sidecar text file sit in the same folder. */
  lemma SidecarBesideVideo(folder: string, name: string)
    requires IsVideoName(name) && '/' !in name
    ensures var dir := PathJoin(folder, []);
      PathJoin(folder, name) == dir + name && PathJoin(folder, SidecarName(name)) == dir + SidecarName(name)
  {
    VideoSidecarName(name);
    PathJoinPrefix(folder, name);
    PathJoinPrefix(folder, SidecarName(name));
  }

  /** An upload outcome that ends the batch: `exit(...)`, or a loop that never returns. */
  predicate Halts(outcome: Outcome) {
    outcome.Exited? || outcome == OutOfInput
  }

  /**
   * The body of the inner loop for one file: a video file whose sidecar exists is
   * uploaded with the title and keywords parsed from the sidecar; any other file is
   * passed over.
   */
  function Visit(e: Entry, sidecars: map<string, string>, world: string -> World, playlistId: string): Option<Item> {
    if !IsVideoName(e.name) then None
    else
      var video := PathJoin(e.folder, e.name);
      var txt := PathJoin(e.folder, SidecarName(e.name));
      if txt !in sidecars then None
      else
        var sidecar := ParseSidecar(sidecars[txt]);
        var w := world(video);
        Some(Item(e, video, sidecar.title, sidecar.keywords, Tags(sidecar.keywords), Upload(w.chunks, w.ins, playlistId)))
  }

  /**
   * A file is uploaded exactly when it is a video file with a sidecar beside it,
   * and then with the parsed title, which holds no `#`, and the parsed keywords,
   * which the tags join back to.
   */
  lemma VisitItem(e: Entry, sidecars: map<string, string>, world: string -> World, playlistId: string)
    ensures var r := Visit(e, sidecars, world, playlistId);
      && (r.Some? <==> IsVideoName(e.name) && PathJoin(e.folder, SidecarName(e.name)) in sidecars)
      && (r.Some? ==>
        && r.value.entry == e
        && r.value.video == PathJoin(e.folder, e.name)
        && ParseSidecar(sidecars[PathJoin(e.folder, SidecarName(e.name))]) == Sidecar(r.value.title, r.value.keywords)
        && '#' !in r.value.title
        && (r.value.tags.None? <==> r.value.keywords == [])
        && (r.value.tags.Some? ==> Join(r.value.tags.value, ',') == r.value.keywords))
  {
  }

  /** The inner loop body as a function of the file alone. */
  function VisitOf(sidecars: map<string, string>, world: string -> World, playlistId: string): Entry -> Option<Item> {
    e => Visit(e, sidecars, world, playlistId)
  }

  /** `f` applied to each of `xs`, in order. */
  function MapSeq<A, B>(f: A -> B, xs: seq<A>): (r: seq<B>)
    ensures |r| == |xs|
  {
    seq(|xs|, k requires 0 <= k < |xs| => f(xs[k]))
  }

  lemma MapSeqAt<A, B>(f: A -> B, xs: seq<A>, k: nat)
    requires k < |xs|
    ensures MapSeq(f, xs)[k] == f(xs[k])
  {
  }

  lemma MapSeqConcat<A, B>(f: A -> B, xs: seq<A>, ys: seq<A>)
    ensures MapSeq(f, xs + ys) == MapSeq(f, xs) + MapSeq(f, ys)
  {
  }

  lemma MapSeqPrefix<A, B>(f: A -> B, xs: seq<A>, ys: seq<A>)
    requires xs <= ys
    ensures MapSeq(f, xs) <= MapSeq(f, ys)
  {
    var rest := ys[|xs|..];
    assert ys == xs + rest;
    MapSeqConcat(f, xs, rest);
  }

  /**
   * The batch after one more file: nothing more happens once it has halted; a
   * file passed over changes nothing; an uploaded file is reported, and the batch
   * halts when its upload exited or never returned.
   */
  function Next(r: Report, v: Option<Item>): Report {
    if r.halted || v.None? then r else Report(r.items + [v.value], Halts(v.value.run.outcome))
  }

  /** The values of the results that are present, in order. */
  function Somes<T>(vs: seq<Option<T>>): seq<T> {
    if vs == [] then []
    else Somes(vs[..|vs| - 1]) + (if vs[|vs| - 1].Some? then [vs[|vs| - 1].value] else [])
  }

  lemma PrefixExtend<T>(a: seq<T>, b: seq<T>, c: seq<T>)
    requires a <= b
    ensures a <= b + c
  {
    assert (b + c)[..|a|] == b[..|a|];
  }

  /**
   * The batch over the results of its files, in order: the uploaded files in the
   * order of the walk, all of them when no upload ended the batch, and otherwise
   * those up to the first upload that ended it, which comes last.
   */
  function Fold(vs: seq<Option<Item>>): (r: Report)
    ensures r.items <= Somes(vs)
    ensures !r.halted ==> r.items == Somes(vs)
    ensures forall k :: 0 <= k < |r.items| ==> Some(r.items[k]) in vs
    ensures forall k :: 0 <= k < |r.items| - 1 ==> !Halts(r.items[k].run.outcome)
    ensures r.halted <==> r.items != [] && Halts(r.items[|r.items| - 1].run.outcome)
  {
    if vs == [] then Report([], false)
    else
      var init := vs[..|vs| - 1];
      var v := vs[|vs| - 1];
      var rest := if v.Some? then [v.value] else [];
      assert Somes(vs) == Somes(init) + rest;
      PrefixExtend(Fold(init).items, Somes(init), rest);
      Next(Fold(init), v)
  }

  lemma FoldSnoc(vs: seq<Option<Item>>, v: Option<Item>)
    ensures Fold(vs + [v]) == Next(Fold(vs), v)
  {
    assert (vs + [v])[..|vs|] == vs;
  }

  /** Once an upload has ended the batch, no later file changes the report. */
  lemma {:induction false} HaltedStays(vs: seq<Option<Item>>, more: seq<Option<Item>>)
    requires vs <= more && Fold(vs).halted
    ensures Fold(more) == Fold(vs)
    decreases |more|
  {
    if |more| > |vs| {
      var init := more[..|more| - 1];
      assert vs <= init;
      HaltedStays(vs, init);
    } else {
      assert more == vs;
    }
  }

  /** An upload that raised an HttpError is reported and the batch goes on with the next file. */
  lemma RaisedIsCaught(vs: seq<Option<Item>>, item: Item)
    requires !Fold(vs).halted && item.run.outcome.Raised?
    ensures var r := Fold(vs + [Some(item)]);
      !r.halted && r.items == Fold(vs).items + [item]
  {
    FoldSnoc(vs, Some(item));
  }

  /** An upload that exited, or never returned, is reported and ends the batch. */
  lemma ExitEndsBatch(vs: seq<Option<Item>>, item: Item)
    requires !Fold(vs).halted && Halts(item.run.outcome)
    ensures Fold(vs + [Some(item)]) == Report(Fold(vs).items + [item], true)
  {
    FoldSnoc(vs, Some(item));
  }

  /** A file that is passed over leaves the report as it was. */
  lemma PassedOverChangesNothing(vs: seq<Option<Item>>)
    ensures Fold(vs + [None]) == Fold(vs)
  {
    FoldSnoc(vs, None);
  }

  /** The files of one folder, in order. */
  function EntriesOf(f: Folder): seq<Entry> {
    seq(|f.filenames|, k requires 0 <= k < |f.filenames| => Entry(f.path, f.filenames[k]))
  }

  /** All files of the walk, folder by folder. */
  function Entries(walk: seq<Folder>): seq<Entry> {
    if walk == [] then [] else Entries(walk[..|walk| - 1]) + EntriesOf(walk[|walk| - 1])
  }

  /** The files of the first `m` folders come first among the files of the walk. */
  lemma {:induction false} EntriesPrefix(walk: seq<Folder>, m: nat)
    requires m <= |walk|
    ensures Entries(walk[..m]) <= Entries(walk)
    decreases |walk|
  {
    if m < |walk| {
      var init := walk[..|walk| - 1];
      assert walk[..m] == init[..m];
      EntriesPrefix(init, m);
    } else {
      assert walk[..m] == walk;
    }
  }

  lemma EntriesNext(walk: seq<Folder>, f: nat)
    requires f < |walk|
    ensures Entries(walk[..f + 1]) == Entries(walk[..f]) + EntriesOf(walk[f])
  {
    assert walk[..f + 1][..f] == walk[..f];
  }

  /** The `j`-th file of folder `f` comes right after the files of the folders before it. */
  lemma EntriesAt(walk: seq<Folder>, f: nat, j: nat)
    requires f < |walk| && j < |walk[f].filenames|
    ensures |Entries(walk[..f])| + j < |Entries(walk)|
    ensures Entries(walk)[|Entries(walk[..f])| + j] == Entry(walk[f].path, walk[f].filenames[j])
  {
    EntriesNext(walk, f);
    EntriesPrefix(walk, f + 1);
  }

  /** The whole batch: every file of the walk, in order. */
  function UploadAll(walk: seq<Folder>, sidecars: map<string, string>, world: string -> World, playlistId: string): Report {
    Fold(MapSeq(VisitOf(sidecars, world, playlistId), Entries(walk)))
  }

  /**
   * Every video in the report is a file of the walk that the inner loop body
   * uploads: a video file with a sidecar, whose title holds no `#`.
   */
  lemma BatchItems(walk: seq<Folder>, sidecars: map<string, string>, world: string -> World, playlistId: string)
    ensures var r := UploadAll(walk, sidecars, world, playlistId);
      forall k :: 0 <= k < |r.items| ==>
        var item := r.items[k];
        && item.entry in Entries(walk)
        && Visit(item.entry, sidecars, world, playlistId) == Some(item)
        && IsVideoName(item.entry.name)
        && '#' !in item.title
  {
    var vs := MapSeq(VisitOf(sidecars, world, playlistId), Entries(walk));
    var r := Fold(vs);
    forall k | 0 <= k < |r.items| {
      ResultOfEntry(Entries(walk), sidecars, world, playlistId, r.items[k]);
    }
  }

  /** A present result of the inner loop body comes from a file that passes the filter, with its item. */
  lemma ResultOfEntry(entries: seq<Entry>, sidecars: map<string, string>, world: string -> World, playlistId: string, item: Item)
    requires Some(item) in MapSeq(VisitOf(sidecars, world, playlistId), entries)
    ensures item.entry in entries && Visit(item.entry, sidecars, world, playlistId) == Some(item)
    ensures IsVideoName(item.entry.name) && '#' !in item.title
  {
    var vs := MapSeq(VisitOf(sidecars, world, playlistId), entries);
    var j :| 0 <= j < |vs| && vs[j] == Some(item);
    MapSeqAt(VisitOf(sidecars, world, playlistId), entries, j);
    VisitItem(entries[j], sidecars, world, playlistId);
  }

  /**
   * Conversely, when no upload ended the batch, every file of the walk that passes
   * the filter and has a sidecar is in the report, with the item it was uploaded as.
   */
  lemma BatchComplete(walk: seq<Folder>, sidecars: map<string, string>, world: string -> World, playlistId: string, j: nat)
    requires j < |Entries(walk)|
    requires var e := Entries(walk)[j];
      IsVideoName(e.name) && PathJoin(e.folder, SidecarName(e.name)) in sidecars
    requires !UploadAll(walk, sidecars, world, playlistId).halted
    ensures Visit(Entries(walk)[j], sidecars, world, playlistId).Some?
    ensures Visit(Entries(walk)[j], sidecars, world, playlistId).value in UploadAll(walk, sidecars, world, playlistId).items
  {
    var visit := VisitOf(sidecars, world, playlistId);
    var vs := MapSeq(visit, Entries(walk));
    MapSeqAt(visit, Entries(walk), j);
    VisitItem(Entries(walk)[j], sidecars, world, playlistId);
    SomesHas(vs, j);
  }

  /** Every present value is among the values `Somes` keeps. */
  lemma {:induction false} SomesHas<T>(vs: seq<Option<T>>, j: nat)
    requires j < |vs| && vs[j].Some?
    ensures vs[j].value in Somes(vs)
  {
    var init := vs[..|vs| - 1];
    if j < |vs| - 1 {
      SomesHas(init, j);
    }
  }

  /**
   * The per-file body of the inner loop, with `edit_and_upload_video` and its
   * `except HttpError`: a Raised outcome comes back as part of the item instead of
   * propagating.
   */
  method ProcessFile(foldername: string, filename: string, sidecars: map<string, string>, world: string -> World, playlistId: string)
    returns (item: Option<Item>)
    ensures item == Visit(Entry(foldername, filename), sidecars, world, playlistId)
  {
    item := None;
    if IsVideoName(filename) {
      var videoFile := PathJoin(foldername, filename);
      var txtFile := PathJoin(foldername, SidecarName(filename));
      if txtFile in sidecars {
        var sidecar := ParseSidecar(sidecars[txtFile]);
        var tags := Tags(sidecar.keywords);
        var w := world(videoFile);
        var run := ResumableUpload(w.chunks, w.ins, playlistId);
        item := Some(Item(Entry(foldername, filename), videoFile, sidecar.title, sidecar.keywords, tags, run));
      }
    }
  }

  /**
   * The inner loop, `for filename in filenames`, over one folder, continuing the
   * batch `report` whose files so far had the results `vs`. It stops early when an
   * upload ends the batch, which leaves the report as all the files would.
   */
  method UploadFolder(folder: Folder, sidecars: map<string, string>, world: string -> World, playlistId: string,
                      report: Report, ghost vs: seq<Option<Item>>)
    returns (report': Report)
    requires report == Fold(vs) && !report.halted
    ensures report' == Fold(vs + MapSeq(VisitOf(sidecars, world, playlistId), EntriesOf(folder)))
  {
    report' := report;
    ghost var done := vs;
    ghost var entries := EntriesOf(folder);
    ghost var visit := VisitOf(sidecars, world, playlistId);
    var k := 0;
    while k < |folder.filenames| && !report'.halted
      invariant k <= |folder.filenames|
      invariant done == vs + MapSeq(visit, entries[..k])
      invariant report' == Fold(done)
    {
      var item := ProcessFile(folder.path, folder.filenames[k], sidecars, world, playlistId);
      FolderStep(visit, vs, entries, k, item);
      done := done + [item];
      report' := Next(report', item);
      k := k + 1;
    }
    FolderEnd(visit, vs, entries, k);
  }

  /** One more file of a folder: its result follows the results of the files before it, and the batch takes it in. */
  lemma FolderStep(visit: Entry -> Option<Item>, vs: seq<Option<Item>>, entries: seq<Entry>, k: nat, item: Option<Item>)
    requires k < |entries| && item == visit(entries[k])
    ensures vs + MapSeq(visit, entries[..k]) + [item] == vs + MapSeq(visit, entries[..k + 1])
    ensures Fold(vs + MapSeq(visit, entries[..k]) + [item]) == Next(Fold(vs + MapSeq(visit, entries[..k])), item)
  {
    MapSeqStep(visit, vs, entries, k, item);
    FoldSnoc(vs + MapSeq(visit, entries[..k]), item);
  }

  /** A folder stopped after `k` files, all of them or an upload that ended the batch, gives the batch over all its files. */
  lemma FolderEnd(visit: Entry -> Option<Item>, vs: seq<Option<Item>>, entries: seq<Entry>, k: nat)
    requires k <= |entries|
    requires k == |entries| || Fold(vs + MapSeq(visit, entries[..k])).halted
    ensures Fold(vs + MapSeq(visit, entries[..k])) == Fold(vs + MapSeq(visit, entries))
  {
    MapSeqUpto(visit, vs, entries, k);
    if k < |entries| {
      HaltedStays(vs + MapSeq(visit, entries[..k]), vs + MapSeq(visit, entries));
    }
  }

  /** One more element: its image follows the images of the elements before it. */
  lemma MapSeqStep<A, B>(f: A -> B, vs: seq<B>, xs: seq<A>, k: nat, y: B)
    requires k < |xs| && y == f(xs[k])
    ensures vs + MapSeq(f, xs[..k]) + [y] == vs + MapSeq(f, xs[..k + 1])
  {
    assert xs[..k + 1] == xs[..k] + [xs[k]];
    MapSeqConcat(f, xs[..k], [xs[k]]);
  }

  /** The images of the first `k` elements come first among the images of all of them. */
  lemma MapSeqUpto<A, B>(f: A -> B, vs: seq<B>, xs: seq<A>, k: nat)
    requires k <= |xs|
    ensures vs <= vs + MapSeq(f, xs[..k]) <= vs + MapSeq(f, xs)
    ensures k == |xs| ==> vs + MapSeq(f, xs[..k]) == vs + MapSeq(f, xs)
  {
    MapSeqPrefix(f, xs[..k], xs);
    PrefixAppend(vs, MapSeq(f, xs[..k]), MapSeq(f, xs));
    if k == |xs| {
      assert xs[..k] == xs;
    }
  }

  lemma PrefixAppend<T>(a: seq<T>, b: seq<T>, c: seq<T>)
    requires b <= c
    ensures a <= a + b <= a + c
  {
    assert (a + c)[..|a + b|] == a + b;
  }

  /** `find_and_upload_videos(root_directory, client_secrets_file)` over the folders of the walk. */
  method FindAndUploadVideos(walk: seq<Folder>, sidecars: map<string, string>, world: string -> World, playlistId: string)
    returns (report: Report)
    ensures report == UploadAll(walk, sidecars, world, playlistId)
  {
    report := Report([], false);
    ghost var visit := VisitOf(sidecars, world, playlistId);
    var f := 0;
    while f < |walk| && !report.halted
      invariant f <= |walk|
      invariant report == Fold(MapSeq(visit, Entries(walk[..f])))
    {
      report := UploadFolder(walk[f], sidecars, world, playlistId, report, MapSeq(visit, Entries(walk[..f])));
      WalkStep(visit, walk, f);
      f := f + 1;
    }
    WalkEnd(visit, walk, f);
  }

  /** One more folder: its files follow the files of the folders before it. */
  lemma WalkStep(visit: Entry -> Option<Item>, walk: seq<Folder>, f: nat)
    requires f < |walk|
    ensures MapSeq(visit, Entries(walk[..f])) + MapSeq(visit, EntriesOf(walk[f])) == MapSeq(visit, Entries(walk[..f + 1]))
  {
    EntriesNext(walk, f);
    MapSeqConcat(visit, Entries(walk[..f]), EntriesOf(walk[f]));
  }

  /** A walk stopped after `f` folders, all of them or an upload that ended the batch, gives the batch over the whole walk. */
  lemma WalkEnd(visit: Entry -> Option<Item>, walk: seq<Folder>, f: nat)
    requires f <= |walk|
    requires f == |walk| || Fold(MapSeq(visit, Entries(walk[..f]))).halted
    ensures Fold(MapSeq(visit, Entries(walk[..f]))) == Fold(MapSeq(visit, Entries(walk)))
  {
    if f < |walk| {
      EntriesPrefix(walk, f);
      MapSeqPrefix(visit, Entries(walk[..f]), Entries(walk));
      HaltedStays(MapSeq(visit, Entries(walk[..f])), MapSeq(visit, Entries(walk)));
    } else {
      assert walk[..f] == walk;
    }
  }
}
