/**
 * The add_videos_from_directory management command: every .mp4 and .mov file
 * of the video directory that no row mentions yet becomes an active row with
 * a title and a position derived from its file name.
 */
module AddVideosCommand {
  import opened Wrappers
  import opened Text
  import opened VideoModels

  /** The index of the last occurrence of c in s, if any (str.rfind). */
  function LastIndexOf(s: string, c: char): (r: Option<nat>)
    ensures r.Some? ==> r.value < |s| && s[r.value] == c && forall k :: r.value < k < |s| ==> s[k] != c
    ensures r.None? ==> forall k :: 0 <= k < |s| ==> s[k] != c
  {
    if |s| == 0 then None
    else if s[|s| - 1] == c then Some(|s| - 1)
    else LastIndexOf(s[..|s| - 1], c)
  }

  /** PurePath.stem: the name without its last suffix; a leading or trailing dot is not a suffix. */
  function Stem(name: string): (r: string)
    ensures |r| <= |name| && r == name[..|r|]
  {
    match LastIndexOf(name, '.')
    case Some(i) => if 0 < i < |name| - 1 then name[..i] else name
    case None => name
  }

  /** stem.replace('_', ' ').replace('-', ' '). */
  function Title(name: string): (r: string)
    ensures |r| == |Stem(name)|
    ensures forall k :: 0 <= k < |r| ==> r[k] != '_' && r[k] != '-'
    ensures forall k :: 0 <= k < |r| ==>
      r[k] == (if Stem(name)[k] == '_' || Stem(name)[k] == '-' then ' ' else Stem(name)[k])
  {
    ReplaceChar(ReplaceChar(Stem(name), '_', ' '), '-', ' ')
  }

  /** 'hero' when the lower-cased name mentions hero or horizontal, else 'testimonials'. */
  function PositionFor(name: string): (r: string)
    ensures r == "hero" || r == "testimonials"
    ensures r == "hero" <==> Contains(Lower(name), "hero") || Contains(Lower(name), "horizontal")
  {
    if Contains(Lower(name), "hero") || Contains(Lower(name), "horizontal") then "hero" else "testimonials"
  }

  /** video_file__icontains=name, with ASCII case folding. */
  predicate MentionsFile(v: Video, name: string)
  {
    v.videoFile.Some? && Contains(Lower(v.videoFile.value), Lower(name))
  }

  /** Some row mentions the file; the last row is looked at first. */
  predicate AlreadyImported(rows: seq<Video>, name: string)
    decreases |rows|
  {
    |rows| > 0 && (MentionsFile(rows[|rows| - 1], name) || AlreadyImported(rows[..|rows| - 1], name))
  }

  /** AlreadyImported holds exactly when some row mentions the file. */
  lemma {:induction false} AlreadyImportedIff(rows: seq<Video>, name: string)
    ensures AlreadyImported(rows, name) <==> exists i :: 0 <= i < |rows| && MentionsFile(rows[i], name)
    decreases |rows|
  {
    if |rows| > 0 {
      var init := rows[..|rows| - 1];
      AlreadyImportedIff(init, name);
      if i :| 0 <= i < |init| && MentionsFile(init[i], name) {
        assert rows[i] == init[i];
      }
      if i :| 0 <= i < |rows| && MentionsFile(rows[i], name) {
        if i < |init| {
          assert init[i] == rows[i];
        }
      }
    }
  }

  /** The row Video.objects.create makes for a file. */
  function ImportedVideo(name: string, id: nat, now: int): Video
  {
    Video(id, Title(name), None, None, Some("videos/" + name), PositionFor(name), true, 0, now)
  }

  /** One file on top of the table so far: skipped when a row mentions it, else appended with the next id. */
  function ImportOne(rows: seq<Video>, before: seq<Video>, name: string, nextId: nat, now: int): seq<Video>
    requires |rows| <= |before|
  {
    if AlreadyImported(before, name) then before else before + [ImportedVideo(name, nextId + (|before| - |rows|), now)]
  }

  /**
   * The table after the loop has handled files, in order: a file already
   * mentioned by a row (including one created earlier in the same run) is
   * skipped, any other file is appended with the next id.
   */
  function Import(rows: seq<Video>, files: seq<string>, nextId: nat, now: int): (r: seq<Video>)
    ensures |rows| <= |r| <= |rows| + |files|
    ensures r[..|rows|] == rows
    ensures forall i :: |rows| <= i < |r| ==>
      r[i].isActive && r[i].order == 0 && r[i].id == nextId + (i - |rows|)
      && (r[i].position == "hero" || r[i].position == "testimonials")
    decreases |files|
  {
    if |files| == 0 then rows
    else ImportOne(rows, Import(rows, files[..|files| - 1], nextId, now), files[|files| - 1], nextId, now)
  }

  /**
   * Import over a prefix of the files one longer: the table grows by the
   * next file's row exactly when no row mentions that file yet.
   */
  lemma ImportStep(rows: seq<Video>, files: seq<string>, k: nat, nextId: nat, now: int,
                   before: seq<Video>, id: nat, created: bool, after: seq<Video>)
    requires k < |files| && before == Import(rows, files[..k], nextId, now)
    requires id == nextId + (|before| - |rows|)
    requires created <==> !AlreadyImported(before, files[k])
    requires after == if created then before + [ImportedVideo(files[k], id, now)] else before
    ensures after == Import(rows, files[..k + 1], nextId, now)
  {
    ImportPrefixStep(rows, files, k, nextId, now);
    ImportOneUnfolds(rows, before, files[k], nextId, now);
    assert ImportedVideo(files[k], id, now) == ImportedVideo(files[k], nextId + (|before| - |rows|), now);
  }

  /** Import over a prefix one longer, unfolded once. */
  lemma ImportPrefixStep(rows: seq<Video>, files: seq<string>, k: nat, nextId: nat, now: int)
    requires k < |files|
    ensures Import(rows, files[..k + 1], nextId, now) == ImportOne(rows, Import(rows, files[..k], nextId, now), files[k], nextId, now)
  {
    assert files[..k + 1][..k] == files[..k];
  }

  /** ImportOne, unfolded. */
  lemma ImportOneUnfolds(rows: seq<Video>, before: seq<Video>, name: string, nextId: nat, now: int)
    requires |rows| <= |before|
    ensures ImportOne(rows, before, name, nextId, now)
         == if AlreadyImported(before, name) then before else before + [ImportedVideo(name, nextId + (|before| - |rows|), now)]
  {
  }

  /** A created row mentions the file it was created for. */
  lemma ImportedVideoMentionsFile(name: string, id: nat, now: int)
    ensures MentionsFile(ImportedVideo(name, id, now), name)
  {
    LowerAppend("videos/", name);
    ContainsSuffix(Lower("videos/"), Lower(name));
  }

  /** After the run, every file of the directory is mentioned by some row. */
  lemma {:induction false} ImportCoversFiles(rows: seq<Video>, files: seq<string>, nextId: nat, now: int)
    ensures forall f :: f in files ==> AlreadyImported(Import(rows, files, nextId, now), f)
    decreases |files|
  {
    if |files| > 0 {
      var init := files[..|files| - 1];
      var name := files[|files| - 1];
      var before := Import(rows, init, nextId, now);
      var after := Import(rows, files, nextId, now);
      ImportCoversFiles(rows, init, nextId, now);
      ImportOneUnfolds(rows, before, name, nextId, now);
      forall f | f in files
        ensures AlreadyImported(after, f)
      {
        if f == name && !AlreadyImported(before, name) {
          var v := ImportedVideo(name, nextId + (|before| - |rows|), now);
          ImportedVideoMentionsFile(name, nextId + (|before| - |rows|), now);
          AppendedRowMentions(before, v, name);
        } else if f != name {
          assert f in init;
          if after != before {
            PrefixKeepsMention(before, after[|before|], f);
          }
        }
      }
    }
  }

  /** A table whose last row mentions the file has the file imported. */
  lemma AppendedRowMentions(before: seq<Video>, v: Video, name: string)
    requires MentionsFile(v, name)
    ensures AlreadyImported(before + [v], name)
  {
    assert (before + [v])[|before|] == v;
  }

  /** Appending a row keeps every file mentioned so far imported. */
  lemma PrefixKeepsMention(before: seq<Video>, v: Video, name: string)
    requires AlreadyImported(before, name)
    ensures AlreadyImported(before + [v], name)
  {
    assert (before + [v])[..|before|] == before;
  }

  /** Rows that existed before the run are never touched. */
  lemma ImportKeepsExisting(rows: seq<Video>, files: seq<string>, nextId: nat, now: int)
    ensures forall i :: 0 <= i < |rows| ==> Import(rows, files, nextId, now)[i] == rows[i]
  {
    var r := Import(rows, files, nextId, now);
    assert r[..|rows|] == rows;
    forall i | 0 <= i < |rows|
      ensures r[i] == rows[i]
    {
      assert r[..|rows|][i] == r[i];
    }
  }

  /**
   * Command.handle: nothing is created when the directory is missing or holds
   * no video; otherwise the table becomes Import of the .mp4 files followed by
   * the .mov files, and added_count is the number of rows created.
   */
  method AddVideosFromDirectory(store: VideoStore, dirExists: bool, mp4Files: seq<string>, movFiles: seq<string>, now: int)
    returns (added: nat)
    requires store.Valid()
    modifies store
    ensures store.Valid()
    ensures !dirExists ==> store.rows == old(store.rows) && added == 0
    ensures dirExists ==> store.rows == Import(old(store.rows), mp4Files + movFiles, old(store.nextId), now)
    ensures |store.rows| == |old(store.rows)| + added && store.nextId == old(store.nextId) + added
    ensures added <= |mp4Files + movFiles|
  {
    if !dirExists {
      return 0;
    }
    var videoFiles := mp4Files + movFiles;
    if |videoFiles| == 0 {
      return 0;
    }
    added := ImportFiles(store, videoFiles, now);
  }

  /** The loop over the video files, in order, on the table read once and written back at the end. */
  method ImportFiles(store: VideoStore, videoFiles: seq<string>, now: int) returns (added: nat)
    requires store.Valid()
    modifies store
    ensures store.Valid()
    ensures store.rows == Import(old(store.rows), videoFiles, old(store.nextId), now)
    ensures |store.rows| == |old(store.rows)| + added && store.nextId == old(store.nextId) + added
    ensures added <= |videoFiles|
  {
    ghost var rows0, next0 := store.rows, store.nextId;
    var rows, next := store.rows, store.nextId;
    added := 0;
    var k := 0;
    assert videoFiles[..0] == [];
    while k < |videoFiles|
      invariant 0 <= k <= |videoFiles|
      invariant rows == Import(rows0, videoFiles[..k], next0, now)
      invariant |rows| == |rows0| + added && next == next0 + added
      invariant added <= k
    {
      var created;
      rows, next, created := ImportFile(rows, next, videoFiles[k], now, rows0, videoFiles, k, next0);
      if created {
        added := added + 1;
      }
      assert rows == Import(rows0, videoFiles[..k + 1], next0, now);
      k := k + 1;
    }
    assert videoFiles[..k] == videoFiles;
    ImportKeepsIds(rows0, videoFiles, next0, now);
    store.rows, store.nextId := rows, next;
  }

  /**
   * One iteration of the loop: skip the file when a row mentions it, else
   * create its row with the next id.  The table then holds the import of one
   * more file.
   */
  method ImportFile(rows: seq<Video>, next: nat, name: string, now: int,
                    ghost rows0: seq<Video>, ghost files: seq<string>, ghost k: nat, ghost next0: nat)
    returns (after: seq<Video>, nextAfter: nat, created: bool)
    requires k < |files| && files[k] == name
    requires rows == Import(rows0, files[..k], next0, now)
    requires next == next0 + (|rows| - |rows0|)
    ensures created <==> !AlreadyImported(rows, name)
    ensures after == if created then rows + [ImportedVideo(name, next, now)] else rows
    ensures nextAfter == next + (if created then 1 else 0)
    ensures after == Import(rows0, files[..k + 1], next0, now)
  {
    if AlreadyImported(rows, name) {
      after, nextAfter, created := rows, next, false;
    } else {
      after, nextAfter, created := rows + [ImportedVideo(name, next, now)], next + 1, true;
    }
    ImportStep(rows0, files, k, next0, now, rows, next, created, after);
  }

  /** The rows created by a run take fresh ids, so the primary keys stay distinct. */
  lemma {:induction false} ImportKeepsIds(rows: seq<Video>, files: seq<string>, nextId: nat, now: int)
    requires IdsUniqueBelow(rows, nextId)
    ensures var r := Import(rows, files, nextId, now);
      IdsUniqueBelow(r, nextId + (|r| - |rows|))
    decreases |files|
  {
    if |files| > 0 {
      var init := files[..|files| - 1];
      ImportKeepsIds(rows, init, nextId, now);
      ImportOneKeepsIds(rows, Import(rows, init, nextId, now), files[|files| - 1], nextId, now);
    }
  }

  /** One file's step keeps the ids below the next one and distinct. */
  lemma ImportOneKeepsIds(rows: seq<Video>, before: seq<Video>, name: string, nextId: nat, now: int)
    requires |rows| <= |before| && IdsUniqueBelow(before, nextId + (|before| - |rows|))
    ensures var r := ImportOne(rows, before, name, nextId, now);
      |rows| <= |r| && IdsUniqueBelow(r, nextId + (|r| - |rows|))
  {
    ImportOneUnfolds(rows, before, name, nextId, now);
    if !AlreadyImported(before, name) {
      var id := nextId + (|before| - |rows|);
      AppendKeepsIds(before, id, ImportedVideo(name, id, now));
    }
  }
}
