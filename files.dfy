/** The file tools of the agent (file.go): reading a window of lines, listing a
    directory tree to a bounded depth, and writing a file from a line offset.
    The disk is a value: regular files by path, and the entries each readable
    directory lists, in the order `os.ReadDir` returns them (sorted by name;
    nothing here depends on that order). A path
    missing from `files` cannot be read; a path missing from `dirs` cannot be
    listed. */
module Files {
  import opened Base
  import opened Strings
  import opened Paths

  /** An entry of a directory listing: its name and whether it is a directory. */
  datatype DirEntry = DirEntry(name: string, isDir: bool)

  /** The disk as the file tools see it. */
  datatype FileSystem = FileSystem(files: map<string, string>, dirs: map<string, seq<DirEntry>>)

  /** The largest number of lines one read may ask for. */
  const MaxLines: int := 1000

  const TooManyLines: string := "Cannot read more than 1000 lines"

  /** The lines of a text, as `strings.Split(text, "\n")` gives them. */
  function Lines(text: string): (lines: seq<string>)
    ensures |lines| >= 1
  {
    Split(text, '\n')
  }

  // ---------------------------------------------------------------- ReadFile

  function Min(a: int, b: int): int
  {
    if a <= b then a else b
  }

  /** Reads at most `length` lines of the file at `path` starting at line
      `offset`; a length of 0 means 1000 lines. A file that cannot be read
      gives the empty text. */
  function ReadFile(files: map<string, string>, path: string, offset: int, length: int): (r: Outcome<string>)
    ensures length > MaxLines ==> r == Done(TooManyLines)
    ensures length <= MaxLines && path !in files ==> r == Done("")
    ensures length <= MaxLines && path in files && offset > |Lines(files[path])| ==>
              r.Done? && StartsWith(r.value, "File has ")
    ensures r.Panic? <==>
              length <= MaxLines && path in files && offset <= |Lines(files[path])| && (offset < 0 || length < 0)
  {
    if length > MaxLines then Done(TooManyLines)
    else
      var want := if length == 0 then MaxLines else length;
      if path !in files then Done("")
      else
        var lines := Lines(files[path]);
        if offset > |lines| then
          Done("File has " + NatToString(|lines|) + " lines, cannot read line " + NatToString(offset))
        else if offset + want > |lines| then
          if offset < 0 then Panic("slice bounds out of range") else Done(Join(lines[offset..], '\n'))
        else if offset < 0 || want < 0 then Panic("slice bounds out of range")
        else Done(Join(lines[offset..offset + want], '\n'))
  }

  /** A read that starts inside the file returns exactly the lines
      `offset .. min(offset + length, n)`, so never more than `length` of them. */
  lemma ReadFileWindow(files: map<string, string>, path: string, offset: int, length: int)
    requires 0 <= length <= MaxLines && path in files
    requires 0 <= offset < |Lines(files[path])|
    ensures var lines := Lines(files[path]);
            var want := if length == 0 then MaxLines else length;
            var r := ReadFile(files, path, offset, length);
            r.Done? && Lines(r.value) == lines[offset..Min(offset + want, |lines|)] && |Lines(r.value)| <= want
  {
    var lines := Lines(files[path]);
    var want := if length == 0 then MaxLines else length;
    var window := lines[offset..Min(offset + want, |lines|)];
    assert forall i :: 0 <= i < |window| ==> window[i] == lines[offset + i];
    SplitJoin(window, '\n');
    if offset + want > |lines| {
      assert window == lines[offset..];
    } else {
      assert window == lines[offset..offset + want];
    }
  }

  /** A read of a file of at most 1000 lines from offset 0 with length 0 gives the whole file. */
  lemma ReadWholeFile(files: map<string, string>, path: string)
    requires path in files && |Lines(files[path])| <= MaxLines
    ensures ReadFile(files, path, 0, 0) == Done(files[path])
  {
    var lines := Lines(files[path]);
    JoinSplit(files[path], '\n');
    assert lines[0..] == lines;
    if |lines| == MaxLines {
      assert lines[0..0 + MaxLines] == lines;
    }
  }

  // ------------------------------------------------------------ ListDirectory

  /** A name a directory entry can have: not empty and without a separator. */
  predicate ValidName(name: string)
  {
    name != [] && '/' !in name
  }

  /** The entries of a directory, all with valid names. */
  predicate ValidEntries(entries: seq<DirEntry>)
  {
    forall i :: 0 <= i < |entries| ==> ValidName(entries[i].name)
  }

  /** Every entry of every directory has a valid name. */
  predicate ValidDirs(dirs: map<string, seq<DirEntry>>)
  {
    forall p :: p in dirs ==> ValidEntries(dirs[p])
  }

  /** The directory a listing request refers to: "." and "" stand for the
      working directory, and a relative path is taken from it. */
  function Resolve(workingDirectory: string, path: string): string
  {
    var p := if path == "." || path == "" then workingDirectory else path;
    if IsAbs(p) then p else PathJoin(workingDirectory, p)
  }

  /** Each path of `paths`, placed under `name`. */
  function Nest(name: string, paths: seq<string>): seq<string>
  {
    seq(|paths|, i requires 0 <= i < |paths| => PathJoin(name, paths[i]))
  }

  /** What listing `path` to `depth` yields: nothing for a negative depth or a
      directory that cannot be read, and otherwise the entries below. */
  function Listing(dirs: map<string, seq<DirEntry>>, workingDirectory: string, path: string, depth: int): (listed: seq<string>)
    ensures depth >= 0 && Resolve(workingDirectory, path) in dirs ==> |listed| >= |dirs[Resolve(workingDirectory, path)]|
    decreases depth, 1
  {
    if depth < 0 then []
    else
      var dir := Resolve(workingDirectory, path);
      if dir !in dirs then [] else EntryListing(dirs, workingDirectory, dir, dirs[dir], depth)
  }

  /** The listing of `entries` of directory `dir`: each entry's name, followed,
      for a directory when `depth > 0`, by its own listing to `depth - 1`
      placed under its name. */
  function EntryListing(dirs: map<string, seq<DirEntry>>, workingDirectory: string, dir: string,
                        entries: seq<DirEntry>, depth: nat): (listed: seq<string>)
    ensures |listed| >= |entries|
    ensures entries != [] ==> listed[0] == entries[0].name
    decreases depth, 0, |entries|
  {
    if entries == [] then []
    else
      var e := entries[0];
      var nested :=
        if e.isDir && depth > 0
        then Nest(e.name, Listing(dirs, workingDirectory, PathJoin(dir, e.name), depth - 1))
        else [];
      [e.name] + nested + EntryListing(dirs, workingDirectory, dir, entries[1..], depth)
  }

  /** Lists the directory at `path`, recursing into subdirectories while `depth > 0`. */
  method ListDirectory(dirs: map<string, seq<DirEntry>>, workingDirectory: string, path: string, depth: int)
    returns (fileNames: seq<string>)
    ensures fileNames == Listing(dirs, workingDirectory, path, depth)
    ensures depth < 0 || Resolve(workingDirectory, path) !in dirs ==> fileNames == []
    decreases depth
  {
    if depth < 0 {
      return [];
    }
    var p := path;
    if p == "." || p == "" {
      p := workingDirectory;
    }
    if !IsAbs(p) {
      p := PathJoin(workingDirectory, p);
    }
    assert p == Resolve(workingDirectory, path);
    if p !in dirs {
      return [];
    }
    var files := dirs[p];
    assert Listing(dirs, workingDirectory, path, depth) == EntryListing(dirs, workingDirectory, p, files, depth);
    fileNames := [];
    for i := 0 to |files|
      invariant fileNames + EntryListing(dirs, workingDirectory, p, files[i..], depth)
                == EntryListing(dirs, workingDirectory, p, files, depth)
    {
      ghost var before := fileNames;
      var file := files[i];
      var relativePath := file.name;
      fileNames := fileNames + [relativePath];
      var subFiles := [];
      if file.isDir && depth > 0 {
        subFiles := ListDirectory(dirs, workingDirectory, PathJoin(p, file.name), depth - 1);
        fileNames := AppendNested(fileNames, relativePath, subFiles);
      }
      ghost var nested :=
        if file.isDir && depth > 0
        then Nest(file.name, Listing(dirs, workingDirectory, PathJoin(p, file.name), depth - 1))
        else [];
      assert fileNames == before + [relativePath] + nested;
      EntryListingStep(dirs, workingDirectory, p, files, i, depth);
      ghost var rest := EntryListing(dirs, workingDirectory, p, files[i + 1..], depth);
      Regroup(before, [relativePath], nested, rest);
    }
    assert files[|files|..] == [];
  }

  /** The inner loop of the listing: appends each path of `subFiles`, joined under `name`. */
  method AppendNested(fileNames: seq<string>, name: string, subFiles: seq<string>) returns (r: seq<string>)
    ensures r == fileNames + Nest(name, subFiles)
  {
    r := fileNames;
    for j := 0 to |subFiles|
      invariant r == fileNames + Nest(name, subFiles[..j])
    {
      NestSnoc(name, subFiles, j);
      r := r + [PathJoin(name, subFiles[j])];
    }
    assert subFiles[..|subFiles|] == subFiles;
  }

  lemma Regroup<T>(a: seq<T>, b: seq<T>, c: seq<T>, d: seq<T>)
    ensures a + b + c + d == a + (b + c + d)
  {
  }

  /** Nesting one more path adds its join at the end. */
  lemma NestSnoc(name: string, paths: seq<string>, j: nat)
    requires j < |paths|
    ensures Nest(name, paths[..j + 1]) == Nest(name, paths[..j]) + [PathJoin(name, paths[j])]
  {
  }

  /** One step of the listing loop: the entry at `i`, what is nested under it, then the rest. */
  lemma EntryListingStep(dirs: map<string, seq<DirEntry>>, workingDirectory: string, dir: string,
                         entries: seq<DirEntry>, i: nat, depth: nat)
    requires i < |entries|
    ensures var e := entries[i];
            EntryListing(dirs, workingDirectory, dir, entries[i..], depth)
            == [e.name]
               + (if e.isDir && depth > 0
                  then Nest(e.name, Listing(dirs, workingDirectory, PathJoin(dir, e.name), depth - 1))
                  else [])
               + EntryListing(dirs, workingDirectory, dir, entries[i + 1..], depth)
  {
    assert entries[i..][0] == entries[i];
    assert entries[i..][1..] == entries[i + 1..];
  }

  /** The names of some entries, in order. */
  function EntryNames(entries: seq<DirEntry>): seq<string>
  {
    seq(|entries|, i requires 0 <= i < |entries| => entries[i].name)
  }

  /** The paths of a listing that have a single component. */
  function TopLevel(paths: seq<string>): seq<string>
  {
    if paths == [] then []
    else (if '/' in paths[0] then [] else [paths[0]]) + TopLevel(paths[1..])
  }

  lemma {:induction false} TopLevelAppend(a: seq<string>, b: seq<string>)
    ensures TopLevel(a + b) == TopLevel(a) + TopLevel(b)
  {
    if a != [] {
      var head := if '/' in a[0] then [] else [a[0]];
      assert (a + b)[0] == a[0];
      assert (a + b)[1..] == a[1..] + b;
      TopLevelAppend(a[1..], b);
      calc {
        TopLevel(a + b);
        head + TopLevel(a[1..] + b);
        head + (TopLevel(a[1..]) + TopLevel(b));
        (head + TopLevel(a[1..])) + TopLevel(b);
        TopLevel(a) + TopLevel(b);
      }
    } else {
      assert a + b == b;
    }
  }

  /** Nothing placed under an entry's name is top level. */
  lemma {:induction false} TopLevelOfNest(name: string, paths: seq<string>)
    requires ValidName(name)
    ensures TopLevel(Nest(name, paths)) == []
  {
    if paths != [] {
      var n := Nest(name, paths);
      assert n[0] == name + "/" + paths[0];
      assert '/' in n[0];
      assert n[1..] == Nest(name, paths[1..]);
      TopLevelOfNest(name, paths[1..]);
    }
  }

  /** An entry's name, what is nested under it, and the listing of the rest:
      only the name is at the top level. */
  lemma TopLevelStep(name: string, nested: seq<string>, rest: seq<string>)
    requires '/' !in name && TopLevel(nested) == []
    ensures TopLevel([name] + nested + rest) == [name] + TopLevel(rest)
  {
    TopLevelAppend([name] + nested, rest);
    TopLevelAppend([name], nested);
    assert TopLevel([name]) == [name];
  }

  /** The listing of a non-empty run of entries: the first entry, what is
      nested under it, then the listing of the others. */
  lemma EntryListingHead(dirs: map<string, seq<DirEntry>>, workingDirectory: string, dir: string,
                         entries: seq<DirEntry>, depth: nat)
    requires entries != []
    ensures var e := entries[0];
            EntryListing(dirs, workingDirectory, dir, entries, depth)
            == [e.name]
               + (if e.isDir && depth > 0
                  then Nest(e.name, Listing(dirs, workingDirectory, PathJoin(dir, e.name), depth - 1))
                  else [])
               + EntryListing(dirs, workingDirectory, dir, entries[1..], depth)
  {
  }

  /** The entries after the first of valid entries are valid. */
  lemma ValidTail(entries: seq<DirEntry>)
    requires entries != [] && ValidEntries(entries)
    ensures ValidEntries(entries[1..]) && ValidName(entries[0].name)
  {
    assert forall i :: 0 <= i < |entries[1..]| ==> entries[1..][i] == entries[i + 1];
  }

  /** The single-component paths of a listing are exactly the entries of the
      directory, in the order they were read. */
  lemma {:induction false} EntryListingTopLevel(dirs: map<string, seq<DirEntry>>, workingDirectory: string, dir: string,
                                                entries: seq<DirEntry>, depth: nat)
    requires ValidEntries(entries)
    ensures TopLevel(EntryListing(dirs, workingDirectory, dir, entries, depth)) == EntryNames(entries)
    decreases |entries|
  {
    if entries != [] {
      var e := entries[0];
      var nested :=
        if e.isDir && depth > 0
        then Nest(e.name, Listing(dirs, workingDirectory, PathJoin(dir, e.name), depth - 1))
        else [];
      var rest := EntryListing(dirs, workingDirectory, dir, entries[1..], depth);
      EntryListingHead(dirs, workingDirectory, dir, entries, depth);
      ValidTail(entries);
      EntryListingTopLevel(dirs, workingDirectory, dir, entries[1..], depth);
      if e.isDir && depth > 0 {
        TopLevelOfNest(e.name, Listing(dirs, workingDirectory, PathJoin(dir, e.name), depth - 1));
      }
      TopLevelStep(e.name, nested, rest);
      assert EntryNames(entries) == [e.name] + EntryNames(entries[1..]);
    }
  }

  /** Listing a readable directory shows each of its entries, in read order,
      as the single-component paths of the result. */
  lemma ListingTopLevel(dirs: map<string, seq<DirEntry>>, workingDirectory: string, path: string, depth: int)
    requires ValidDirs(dirs)
    requires depth >= 0 && Resolve(workingDirectory, path) in dirs
    ensures TopLevel(Listing(dirs, workingDirectory, path, depth)) == EntryNames(dirs[Resolve(workingDirectory, path)])
  {
    var dir := Resolve(workingDirectory, path);
    EntryListingTopLevel(dirs, workingDirectory, dir, dirs[dir], depth);
  }

  /** At depth 0 a listing is exactly the directory's entries: nothing is nested. */
  lemma {:induction false} EntryListingAtDepthZero(dirs: map<string, seq<DirEntry>>, workingDirectory: string, dir: string,
                                                   entries: seq<DirEntry>)
    ensures EntryListing(dirs, workingDirectory, dir, entries, 0) == EntryNames(entries)
    decreases |entries|
  {
    if entries != [] {
      EntryListingAtDepthZero(dirs, workingDirectory, dir, entries[1..]);
      assert EntryNames(entries) == [entries[0].name] + EntryNames(entries[1..]);
    }
  }

  /** The number of components of a path. */
  function Components(path: string): nat
  {
    |Split(path, '/')|
  }

  /** Placing a path under a valid name adds one component. */
  lemma ComponentsOfJoin(name: string, path: string)
    requires ValidName(name)
    ensures Components(PathJoin(name, path)) == Components(path) + 1
  {
    assert PathJoin(name, path) == name + ['/'] + path;
    SplitAfterPiece(name, path, '/');
  }

  /** No path of `paths` has more than `n` components. */
  predicate Bounded(paths: seq<string>, n: int)
  {
    forall i :: 0 <= i < |paths| ==> Components(paths[i]) <= n
  }

  /** An entry's name, what is nested under it, and the listing of the rest
      stay within a bound when each part does. */
  lemma BoundedStep(name: string, nested: seq<string>, rest: seq<string>, n: int)
    requires '/' !in name && 1 <= n && Bounded(nested, n) && Bounded(rest, n)
    ensures Bounded([name] + nested + rest, n)
  {
    SplitWithoutSeparator(name, '/');
    var all := [name] + nested + rest;
    forall i | 0 <= i < |all|
      ensures Components(all[i]) <= n
    {
      if i == 0 {
      } else if i < 1 + |nested| {
        assert all[i] == nested[i - 1];
      } else {
        assert all[i] == rest[i - 1 - |nested|];
      }
    }
  }

  /** Placing paths under a valid name adds one component to each. */
  lemma BoundedNest(name: string, paths: seq<string>, n: int)
    requires ValidName(name) && Bounded(paths, n)
    ensures Bounded(Nest(name, paths), n + 1)
  {
    forall i | 0 <= i < |paths|
      ensures Components(Nest(name, paths)[i]) <= n + 1
    {
      ComponentsOfJoin(name, paths[i]);
    }
  }

  /** No path in a listing to `depth` has more than `depth + 1` components. */
  lemma {:induction false} ListingDepth(dirs: map<string, seq<DirEntry>>, workingDirectory: string, path: string, depth: int)
    requires ValidDirs(dirs)
    ensures Bounded(Listing(dirs, workingDirectory, path, depth), depth + 1)
    decreases depth, 1
  {
    if depth >= 0 {
      var dir := Resolve(workingDirectory, path);
      if dir in dirs {
        EntryListingDepth(dirs, workingDirectory, dir, dirs[dir], depth);
      }
    }
  }

  /** `ListingDepth` for a run of entries of one directory. */
  lemma {:induction false} EntryListingDepth(dirs: map<string, seq<DirEntry>>, workingDirectory: string, dir: string,
                                             entries: seq<DirEntry>, depth: nat)
    requires ValidDirs(dirs)
    requires ValidEntries(entries)
    ensures Bounded(EntryListing(dirs, workingDirectory, dir, entries, depth), depth + 1)
    decreases depth, 0, |entries|
  {
    if entries != [] {
      var e := entries[0];
      var nested :=
        if e.isDir && depth > 0
        then Nest(e.name, Listing(dirs, workingDirectory, PathJoin(dir, e.name), depth - 1))
        else [];
      EntryListingHead(dirs, workingDirectory, dir, entries, depth);
      ValidTail(entries);
      EntryListingDepth(dirs, workingDirectory, dir, entries[1..], depth);
      if e.isDir && depth > 0 {
        ListingDepth(dirs, workingDirectory, PathJoin(dir, e.name), depth - 1);
        BoundedNest(e.name, Listing(dirs, workingDirectory, PathJoin(dir, e.name), depth - 1), depth);
      }
      BoundedStep(e.name, nested, EntryListing(dirs, workingDirectory, dir, entries[1..], depth), depth + 1);
    }
  }

  // ---------------------------------------------------------------- WriteFile

  /** `os.WriteFile` can write `path`: it is not a directory, and it is an
      existing file or its directory exists. */
  predicate Writable(fs: FileSystem, path: string)
  {
    path !in fs.dirs && (path in fs.files || Dir(path) in fs.dirs)
  }

  /** `os.WriteFile(path, data)` with its error ignored: a write that fails
      leaves the disk as it was. */
  function Store(fs: FileSystem, path: string, data: string): (after: FileSystem)
    ensures after.dirs == fs.dirs
    ensures forall p :: p != path ==> (p in after.files <==> p in fs.files)
    ensures forall p :: p != path && p in fs.files ==> after.files[p] == fs.files[p]
    ensures Writable(fs, path) ==> path in after.files && after.files[path] == data
    ensures !Writable(fs, path) ==> after == fs
  {
    if Writable(fs, path) then fs.(files := fs.files[path := data]) else fs
  }

  /** The lines of `content` once carriage returns are removed. */
  function ContentLines(content: string): seq<string>
  {
    Lines(Remove(content, '\r'))
  }

  /** What a write leaves in the file: the lines of `content` from `offset` on,
      the offset cut down to the number of lines. */
  function NetContent(content: string, offset: nat): (text: string)
    ensures '\r' !in text
  {
    var lines := ContentLines(content);
    var start := if offset > |lines| then |lines| else offset;
    SplitKeepsOut(Remove(content, '\r'), '\n', '\r');
    assert forall i :: 0 <= i < |lines[start..]| ==> lines[start..][i] == lines[start + i];
    JoinKeepsOut(lines[start..], '\n', '\r');
    Join(lines[start..], '\n')
  }

  /** Of two writes to the same path, the second is what remains. */
  lemma StoreTwice(fs: FileSystem, path: string, first: string, second: string)
    ensures Store(Store(fs, path, first), path, second) == Store(fs, path, second)
  {
    if Writable(fs, path) {
      assert fs.files[path := first][path := second] == fs.files[path := second];
    }
  }

  /** Writes the lines of `content` from `offset` on: the file is first written
      with the lines before the offset and then overwritten with the rest. */
  method WriteFile(fs: FileSystem, path: string, content: string, offset: int) returns (after: FileSystem, r: Outcome<string>)
    ensures offset < 0 ==> after == fs && r.Panic?
    ensures offset >= 0 ==> after == Store(fs, path, NetContent(content, offset))
    ensures offset >= 0 ==> r == Done("Wrote " + NatToString(|ContentLines(content)|) + " lines to " + path)
  {
    var text := Remove(content, '\r');
    var lines := Lines(text);
    var start := offset;
    if start > |lines| {
      start := |lines|;
    }
    if start < 0 {
      return fs, Panic("slice bounds out of range");
    }
    after := Store(fs, path, Join(lines[..start], '\n'));
    after := Store(after, path, Join(lines[start..], '\n'));
    StoreTwice(fs, path, Join(lines[..start], '\n'), Join(lines[start..], '\n'));
    assert Join(lines[start..], '\n') == NetContent(content, offset);
    r := Done("Wrote " + NatToString(|lines|) + " lines to " + path);
  }

  /** Writing from offset 0 keeps the whole content, carriage returns removed. */
  lemma NetContentFromStart(content: string)
    ensures NetContent(content, 0) == Remove(content, '\r')
  {
    var lines := ContentLines(content);
    assert lines[0..] == lines;
    JoinSplit(Remove(content, '\r'), '\n');
  }

  /** The number of lines a write leaves is at most the number of lines given. */
  lemma NetContentLines(content: string, offset: nat)
    ensures |Lines(NetContent(content, offset))| <= |ContentLines(content)|
  {
    var lines := ContentLines(content);
    var start := if offset > |lines| then |lines| else offset;
    var tail := lines[start..];
    var text := NetContent(content, offset);
    assert text == Join(tail, '\n');
    if tail != [] {
      assert forall i :: 0 <= i < |tail| ==> tail[i] == lines[start + i];
      SplitJoin(tail, '\n');
      assert Lines(text) == tail;
    } else {
      assert Lines(text) == Split([], '\n');
    }
  }

  /** Reading a written file back from the start gives what the write left,
      when the written content has at most 1000 lines. */
  lemma ReadBackWrite(fs: FileSystem, path: string, content: string, offset: nat)
    requires Writable(fs, path)
    requires |ContentLines(content)| <= MaxLines
    ensures ReadFile(Store(fs, path, NetContent(content, offset)).files, path, 0, 0) == Done(NetContent(content, offset))
  {
    var after := Store(fs, path, NetContent(content, offset));
    NetContentLines(content, offset);
    ReadWholeFile(after.files, path);
  }

  /** A write to a new file in a directory that does not exist is lost:
      reading the file back gives the empty text, as for any unreadable file. */
  lemma WriteWithoutDirectoryIsLost(fs: FileSystem, path: string, content: string, offset: nat)
    requires path !in fs.files && Dir(path) !in fs.dirs
    ensures Store(fs, path, NetContent(content, offset)) == fs
    ensures ReadFile(Store(fs, path, NetContent(content, offset)).files, path, 0, 0) == Done("")
  {
  }

  /** Writing a new file into a listed directory makes it readable. */
  lemma WriteIntoDirectory(fs: FileSystem, dir: string, name: string, content: string)
    requires CleanDir(dir) && dir in fs.dirs && '/' !in name && PathJoin(dir, name) !in fs.dirs
    ensures Writable(fs, PathJoin(dir, name))
    ensures PathJoin(dir, name) in Store(fs, PathJoin(dir, name), content).files
  {
    DirOfJoin(dir, name);
  }
}
