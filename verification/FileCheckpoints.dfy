/** File snapshots and file rewind, over a flat map from slash-separated relative paths to contents. */
module FileCheckpoints {
  import opened Common
  import opened Text

  /** A snapshot entry without content means "no such file"; captures never contain one. */
  type Snapshot = map<string, Option<string>>

  predicate IsGit(rel: string) { rel == ".git" || ".git/" <= rel }

  /** What a capture of a tree is. */
  function Captured(files: map<string, string>): Snapshot {
    map p | p in files && !IsGit(p) :: Some(files[p])
  }

  /** What a complete restore leaves: the snapshot, and whatever it does not govern under `.git`. */
  function Restored(files: map<string, string>, s: Snapshot): map<string, string> {
    map p | p in files.Keys + s.Keys && (if p in s then s[p].Some? else IsGit(p)) ::
      if p in s then s[p].value else files[p]
  }

  /** Two trees agree at a path. */
  predicate Agree(a: map<string, string>, b: map<string, string>, p: string) {
    (p in a <==> p in b) && (p in a ==> a[p] == b[p])
  }

  ghost predicate AgreeOutside(a: map<string, string>, b: map<string, string>, ps: set<string>) {
    forall p :: p !in ps ==> Agree(a, b, p)
  }

  lemma AgreeTrans(a: map<string, string>, b: map<string, string>, c: map<string, string>, ps: set<string>)
    requires AgreeOutside(a, b, ps) && AgreeOutside(b, c, ps)
    ensures AgreeOutside(a, c, ps)
  {
  }

  ghost predicate Escapes(rel: string) { "../" <= rel || Contains(rel, "/../") }

  /** A component ".." with more of the path behind it. */
  predicate GoesUp(p: string, i: int) {
    0 <= i && i + 3 <= |p| && p[i] == '.' && p[i + 1] == '.' && p[i + 2] == '/' && (i == 0 || p[i - 1] == '/')
  }

  class FileSystem {
    var files: map<string, string>

    constructor (files: map<string, string>)
      ensures this.files == files
    {
      this.files := files;
    }

    /** `captureFiles`. Reading may fail. */
    method Capture() returns (ok: bool, out: Snapshot)
      ensures ok ==> out == Captured(files)
    {
      out := map[];
      var left := files.Keys;
      while left != {}
        invariant left <= files.Keys
        invariant out == map p | p in files.Keys - left && !IsGit(p) :: Some(files[p])
        decreases |left|
      {
        var rel := Pick(left);
        left := left - {rel};
        if IsGit(rel) { continue; }
        var readable: bool := *;
        if !readable { return false, out; }
        out := out[rel := Some(files[rel])];
      }
      ok := true;
    }

    /** Removing a file that is already gone is no failure. */
    method Remove(rel: string) returns (ok: bool)
      modifies this
      ensures files == if ok then old(files) - {rel} else old(files)
    {
      ok := *;
      if ok { files := files - {rel}; }
    }

    /** A failed write may have truncated the file. */
    method Write(rel: string, content: string) returns (ok: bool)
      modifies this
      ensures ok ==> files == old(files)[rel := content]
      ensures forall p :: p != rel ==> Agree(files, old(files), p)
    {
      ok := *;
      if ok {
        files := files[rel := content];
      } else {
        var partial: string := *;
        files := files[rel := partial];
      }
    }

    /** The first loop of `restoreFiles`: files the snapshot does not know. */
    method RemoveExtra(current: Snapshot, s: Snapshot) returns (ok: bool)
      modifies this
      ensures ok ==> files == old(files) - (current.Keys - s.Keys)
      ensures forall p :: p !in current ==> Agree(files, old(files), p)
    {
      var left := current.Keys;
      while left != {}
        invariant left <= current.Keys
        invariant files == old(files) - (current.Keys - s.Keys - left)
        decreases |left|
      {
        var rel := Pick(left);
        left := left - {rel};
        if rel in s { continue; }
        ok := Remove(rel);
        if !ok { return; }
      }
      ok := true;
    }

    /** One round of the second loop. */
    method RestoreOne(rel: string, content: Option<string>) returns (ok: bool)
      modifies this
      ensures ok ==> files == if content.Some? then old(files)[rel := content.value] else old(files) - {rel}
      ensures ok ==> !Escapes(rel)
      ensures forall p :: p != rel ==> Agree(files, old(files), p)
    {
      IndexIsFirst(rel, "/../");
      if "../" <= rel || Index(rel, "/../") != -1 { return false; }
      ok := *;
      if !ok { return; }
      if content.None? {
        ok := Remove(rel);
      } else {
        ok := Write(rel, content.value);
      }
    }

    /** The second loop, over the snapshot in no particular order. */
    method WriteAll(s: Snapshot) returns (ok: bool)
      modifies this
      ensures ok ==> files == Written(old(files), s, s.Keys)
      ensures ok ==> forall p :: p in s ==> !Escapes(p)
      ensures AgreeOutside(files, old(files), s.Keys)
    {
      var left := s.Keys;
      while left != {}
        invariant left <= s.Keys
        invariant files == Written(old(files), s, s.Keys - left)
        invariant forall p :: p in s && p !in left ==> !Escapes(p)
        decreases |left|
      {
        var rel := Pick(left);
        WrittenStep(old(files), s, left, rel);
        ghost var before := files;
        ok := RestoreOne(rel, s[rel]);
        if !ok {
          WrittenOutside(old(files), s, s.Keys - left);
          AgreeTrans(files, before, old(files), s.Keys);
          return;
        }
        left := left - {rel};
      }
      assert s.Keys - left == s.Keys;
      WrittenOutside(old(files), s, s.Keys);
      ok := true;
    }

    /** `restoreFiles`. A failure may leave the tree part-way. */
    method Restore(s: Snapshot) returns (ok: bool)
      modifies this
      ensures ok ==> files == Restored(old(files), s)
      ensures ok ==> forall p :: p in s ==> !Escapes(p)
      ensures ok ==> forall p, i :: p in s ==> !GoesUp(p, i)
      ensures forall p :: IsGit(p) && p !in s ==> Agree(files, old(files), p)
    {
      hide Written, Restored, Captured;
      var current;
      ok, current := Capture();
      if !ok { return; }
      CapturesNoGit(files);
      WholeRestore(files, s);
      ok := RemoveExtra(current, s);
      if !ok { return; }
      ok := WriteAll(s);
      if ok {
        forall p, i | p in s ensures !GoesUp(p, i) {
          if GoesUp(p, i) { UpEscapes(p, i); }
        }
      }
    }
  }

  /** In a path that does not escape, no component is "..", except perhaps the last. */
  lemma UpEscapes(p: string, i: int)
    requires GoesUp(p, i)
    ensures Escapes(p)
  {
    if i > 0 {
      assert p[i - 1..i + 3] == "/../";
      assert At(p, "/../", i - 1);
    } else {
      assert p[..3] == "../";
    }
  }

  /** The tree after the entries `done` of a snapshot have been written. */
  function Written(files: map<string, string>, s: Snapshot, done: set<string>): map<string, string>
    requires done <= s.Keys
  {
    map p | p in files.Keys + done && (if p in done then s[p].Some? else p in files) ::
      if p in done then s[p].value else files[p]
  }

  lemma CapturesNoGit(files: map<string, string>)
    ensures forall p :: IsGit(p) ==> p !in Captured(files)
  {
  }

  /** Removing what the snapshot does not know and writing what it does is a complete restore. */
  lemma WholeRestore(files: map<string, string>, s: Snapshot)
    ensures Written(files - (Captured(files).Keys - s.Keys), s, s.Keys) == Restored(files, s)
  {
  }

  lemma WrittenStep(files: map<string, string>, s: Snapshot, left: set<string>, rel: string)
    requires rel in left && left <= s.Keys
    ensures var w := Written(files, s, s.Keys - left);
      Written(files, s, s.Keys - (left - {rel})) == if s[rel].Some? then w[rel := s[rel].value] else w - {rel}
  {
  }

  lemma WrittenOutside(files: map<string, string>, s: Snapshot, done: set<string>)
    requires done <= s.Keys
    ensures AgreeOutside(Written(files, s, done), files, s.Keys)
  {
  }

  /***** Main results *****/

  /** The tree has the files of `before`, except that `.git` and what is in it are those of `now`. */
  ghost predicate RestoredOutsideGit(files: map<string, string>, before: map<string, string>, now: map<string, string>) {
    forall p: string :: Agree(files, if p == ".git" || (|p| >= 5 && p[..5] == ".git/") then now else before, p)
  }

  /**
   * Rewinding to a capture restores it, whatever was added, changed or deleted in between: every
   * file outside the root `.git` is as it was captured, and `.git` is as it was before the rewind.
   */
  lemma RewindRestores(before: map<string, string>, now: map<string, string>)
    ensures Captured(Restored(now, Captured(before))) == Captured(before)
    ensures RestoredOutsideGit(Restored(now, Captured(before)), before, now)
  {
    var s := Captured(before);
    var r := Restored(now, s);
    assert Captured(r).Keys == s.Keys;
  }

  /** A complete restore, path by path, for any snapshot: also for one with entries that say "no such file". */
  lemma RestoreMeans(now: map<string, string>, s: Snapshot, p: string)
    ensures var r := Restored(now, s);
      if p in s then (p in r <==> s[p].Some?) && (p in r ==> r[p] == s[p].value)
      else if p == ".git" || (|p| >= 5 && p[..5] == ".git/") then Agree(r, now, p)
      else p !in r
  {
  }

  datatype FileError = NoCheckpoint | EmptyRoot | Io

  /** The file checkpoints of all sessions, over one tree. */
  class Store {
    const fs: FileSystem
    var known: set<string>
    var checkpoints: map<(string, string), Snapshot>

    constructor (fs: FileSystem, known: set<string>)
      ensures this.fs == fs && this.known == known && checkpoints == map[]
    {
      this.fs, this.known, this.checkpoints := fs, known, map[];
    }

    /** `SnapshotFiles`. Persisting the table may fail after the snapshot was stored. */
    method SnapshotFiles(id: string, uid: string, root: string) returns (err: Option<FileError>)
      modifies this
      ensures known == old(known)
      ensures (id !in known || uid == "") ==> err == Some(NoCheckpoint)
      ensures id in known && uid != "" && TrimSpace(root) == "" ==> err == Some(EmptyRoot)
      ensures err.None? ==> checkpoints == old(checkpoints)[(id, uid) := Captured(fs.files)]
      ensures checkpoints == old(checkpoints) || checkpoints == old(checkpoints)[(id, uid) := Captured(fs.files)]
    {
      if id !in known || uid == "" { return Some(NoCheckpoint); }
      if TrimSpace(root) == "" { return Some(EmptyRoot); }
      var ok, files := fs.Capture();
      if !ok { return Some(Io); }
      checkpoints := checkpoints[(id, uid) := files];
      var saved: bool := *;
      return if saved then None else Some(Io);
    }

    /** `RewindFiles`. */
    method RewindFiles(id: string, uid: string, root: string) returns (err: Option<FileError>)
      modifies fs
      ensures (id !in known || TrimSpace(root) == "" || (id, uid) !in checkpoints) <==> err == Some(NoCheckpoint)
      ensures err == Some(NoCheckpoint) ==> fs.files == old(fs.files)
      ensures err.None? ==> fs.files == Restored(old(fs.files), checkpoints[(id, uid)])
    {
      if id !in known || TrimSpace(root) == "" { return Some(NoCheckpoint); }
      if (id, uid) !in checkpoints { return Some(NoCheckpoint); }
      var ok := fs.Restore(checkpoints[(id, uid)]);
      return if ok then None else Some(Io);
    }

    /** Between a snapshot and its rewind the tree may become anything at all. */
    method SnapshotThenRewind(id: string, uid: string, root: string, meantime: map<string, string>)
      returns (err: Option<FileError>)
      modifies this, fs
      ensures err.None? ==> Captured(fs.files) == Captured(old(fs.files))
      ensures err.None? ==> RestoredOutsideGit(fs.files, old(fs.files), meantime)
    {
      err := SnapshotFiles(id, uid, root);
      if err.Some? { return; }
      fs.files := meantime;
      err := RewindFiles(id, uid, root);
      RewindRestores(old(fs.files), meantime);
    }
  }
}
