/**
  The tree renderer of folder-structure (folder_structure/tree.py).

  A folder is given by its listing: the entries `iterdir()` yields, in the
  order it yields them. The renderer turns a root folder into the lines the
  program prints: a head line with the root path and the path separator, a
  lone pipe, and then one line per entry, walked depth-first, with box-drawing
  connectors in front of every name.
 */
module Tree {

  // The glyphs the renderer draws.
  const PIPE: string := "│"
  const ELBOW: string := "└──"
  const TEE: string := "├──"
  const PIPE_PREFIX: string := "│   "
  const SPACE_PREFIX: string := "    "

  /** One entry of a folder listing. `Dir` is an entry for which `is_dir()`
      holds (it is listed in turn), `File` one for which `is_file()` holds,
      and `Other` one for which neither holds (a broken symbolic link, a
      socket, a device). */
  datatype Entry =
    | Dir(name: string, children: seq<Entry>)
    | File(name: string)
    | Other(name: string)

  // ---------------------------------------------------------------------
  // Ordering of one folder: sorted(entries, key=is_file), a stable sort on
  // a boolean key.

  /** The entries of `es` whose sort key `is_file()` equals `isFile`, in
      listing order. */
  function OfKind(es: seq<Entry>, isFile: bool): (r: seq<Entry>)
    ensures |r| <= |es|
    ensures forall i :: 0 <= i < |r| ==> r[i].File? == isFile
  {
    if es == [] then []
    else
      assert es == [es[0]] + es[1..];
      if es[0].File? == isFile then [es[0]] + OfKind(es[1..], isFile)
      else OfKind(es[1..], isFile)
  }

  /** Splitting a listing by sort key loses and invents nothing. */
  lemma {:induction false} OfKindSplit(es: seq<Entry>)
    ensures multiset(OfKind(es, false)) + multiset(OfKind(es, true)) == multiset(es)
  {
    if es != [] {
      OfKindSplit(es[1..]);
      assert es == [es[0]] + es[1..];
    }
  }

  /** The order in which one folder's entries are drawn: every entry that is
      not a file (directories, and entries that are neither) before every
      file, each group in listing order. TreeProperties proves the ordering
      and that no other stable sort on the same key gives a different
      order. */
  function SortEntries(es: seq<Entry>): (r: seq<Entry>)
    ensures |r| == |es|
  {
    OfKindSplit(es);
    assert |multiset(OfKind(es, false) + OfKind(es, true))| == |multiset(es)|;
    OfKind(es, false) + OfKind(es, true)
  }

  /** Sorting neither loses, duplicates nor invents an entry. */
  lemma SortIsPermutation(es: seq<Entry>)
    ensures multiset(SortEntries(es)) == multiset(es)
  {
    OfKindSplit(es);
  }

  /** Every sorted entry is one of the listed entries. */
  lemma SortedEntryIsListed(es: seq<Entry>, i: nat)
    requires i < |es|
    ensures SortEntries(es)[i] in es
  {
    SortIsPermutation(es);
    assert SortEntries(es)[i] in multiset(SortEntries(es));
  }

  // ---------------------------------------------------------------------
  // Strings

  /** The characters Python's `str.isspace` accepts, which `str.rstrip()`
      removes from the end of a string. */
  predicate IsSpace(c: char)
  {
    c == ' ' || ('\t' <= c <= '\r') || ('\U{1c}' <= c <= '\U{1f}')
    || c == '\U{85}' || c == '\U{a0}' || c == '\U{1680}'
    || ('\U{2000}' <= c <= '\U{200a}') || c == '\U{2028}' || c == '\U{2029}'
    || c == '\U{202f}' || c == '\U{205f}' || c == '\U{3000}'
  }

  /** `s.rstrip()`: the longest prefix of `s` that does not end in whitespace. */
  function RStrip(s: string): (r: string)
    ensures r <= s
    ensures r == [] || !IsSpace(r[|r| - 1])
    ensures forall i :: |r| <= i < |s| ==> IsSpace(s[i])
  {
    if s != [] && IsSpace(s[|s| - 1]) then RStrip(s[..|s| - 1]) else s
  }

  // ---------------------------------------------------------------------
  // The lines, as functions of the folder tree

  /** The connector of the entry at `index` among `count` sorted entries. */
  function Connector(index: int, count: int): (c: string)
    ensures c == ELBOW <==> index == count - 1
    ensures c == TEE <==> index != count - 1
  {
    if index == count - 1 then ELBOW else TEE
  }

  /** The prefix handed down to the contents of the directory at `index`
      among `count` entries: a continuing pipe when siblings follow, blank
      space under the last one. */
  function ChildPrefix(prefix: string, index: int, count: int): string
  {
    if index != count - 1 then prefix + PIPE_PREFIX else prefix + SPACE_PREFIX
  }

  /** The line naming a directory. */
  function DirectoryLine(prefix: string, connector: string, name: string, sep: char): string
  {
    prefix + connector + " " + name + [sep]
  }

  /** The line naming an entry drawn as a file. */
  function FileLine(prefix: string, connector: string, name: string): string
  {
    prefix + connector + " " + name
  }

  /** The two head lines for the root. */
  function HeadLines(rootDir: string, sep: char): seq<string>
  {
    [rootDir + [sep], PIPE]
  }

  /** All lines drawn for the folder whose listing is `listing`, under
      `prefix`. */
  function BodyLines(listing: seq<Entry>, prefix: string, sep: char): seq<string>
    decreases listing, 2
  {
    FolderLines(listing, |listing|, prefix, sep)
  }

  /** The lines drawn for the first `k` entries of the sorted listing. */
  function FolderLines(listing: seq<Entry>, k: nat, prefix: string, sep: char): seq<string>
    requires k <= |listing|
    decreases listing, 1, k
  {
    if k == 0 then []
    else
      var sorted := SortEntries(listing);
      SortedEntryIsListed(listing, k - 1);
      FolderLines(listing, k - 1, prefix, sep)
        + EntryLines(sorted[k - 1], k - 1, |sorted|, prefix, sep)
  }

  /** The lines drawn for the entry at `index` of `count`: a directory gives
      its block, anything else one line. */
  function EntryLines(e: Entry, index: int, count: int, prefix: string, sep: char): seq<string>
    decreases e, 1
  {
    if e.Dir? then DirectoryBlock(e, index, count, prefix, Connector(index, count), sep)
    else [FileLine(prefix, Connector(index, count), e.name)]
  }

  /** The block drawn for a directory: its own line, the lines of its
      contents under the extended prefix, and that prefix stripped of
      trailing whitespace as a spacer. */
  function DirectoryBlock(directory: Entry, index: int, count: int, prefix: string, connector: string, sep: char): seq<string>
    requires directory.Dir?
    decreases directory, 0
  {
    var inner := ChildPrefix(prefix, index, count);
    [DirectoryLine(prefix, connector, directory.name, sep)]
      + BodyLines(directory.children, inner, sep) + [RStrip(inner)]
  }

  /** The whole output for a root path and the root folder's listing. */
  function Render(rootDir: string, rootListing: seq<Entry>, sep: char): seq<string>
  {
    HeadLines(rootDir, sep) + BodyLines(rootListing, "", sep)
  }

  /** One more entry of the sorted listing adds its own lines at the end. */
  lemma FolderLinesStep(listing: seq<Entry>, k: nat, prefix: string, sep: char)
    requires k < |listing|
    ensures FolderLines(listing, k + 1, prefix, sep)
            == FolderLines(listing, k, prefix, sep)
               + EntryLines(SortEntries(listing)[k], k, |listing|, prefix, sep)
  {
  }

  /** Appending a block after the lines so far is appending it to the
      lines the loop has drawn; `TreeBody` uses it at each iteration. */
  lemma ConcatAssoc<T>(a: seq<T>, b: seq<T>, c: seq<T>)
    ensures a + b + c == a + (b + c)
  {
  }

  // ---------------------------------------------------------------------
  // The generator: a list of lines that its methods append to

  class TreeGenerator {
    /** The root path as `str()` shows it. */
    const rootDir: string
    /** What `iterdir()` yields for the root. */
    const rootListing: seq<Entry>
    /** `os.sep`. */
    const sep: char
    /** The lines produced so far. */
    var tree: seq<string>

    constructor (rootDir: string, rootListing: seq<Entry>, sep: char)
      ensures this.rootDir == rootDir && this.rootListing == rootListing && this.sep == sep
      ensures tree == []
    {
      this.rootDir := rootDir;
      this.rootListing := rootListing;
      this.sep := sep;
      tree := [];
    }

    /** Appends the head and the body for the root and returns all lines. */
    method BuildTree() returns (lines: seq<string>)
      modifies this
      ensures tree == old(tree) + Render(rootDir, rootListing, sep)
      ensures lines == tree
    {
      TreeHead();
      TreeBody(rootListing, "");
      lines := tree;
    }

    /** Appends the root path with a separator, then a lone pipe. */
    method TreeHead()
      modifies this
      ensures tree == old(tree) + [rootDir + [sep], PIPE]
    {
      tree := tree + [rootDir + [sep]];
      tree := tree + [PIPE];
    }

    /** Appends the lines of one folder, sorted, under `prefix`. */
    method TreeBody(folder: seq<Entry>, prefix: string)
      modifies this
      decreases folder, 1
      ensures tree == old(tree) + BodyLines(folder, prefix, sep)
    {
      var entries := SortEntries(folder);
      var entriesCount := |entries|;
      for index := 0 to entriesCount
        invariant tree == old(tree) + FolderLines(folder, index, prefix, sep)
      {
        var connector := if index == entriesCount - 1 then ELBOW else TEE;
        var entry := entries[index];
        SortedEntryIsListed(folder, index);
        ghost var drawn := EntryLines(entry, index, entriesCount, prefix, sep);
        if entry.Dir? {
          AddDirectory(entry, index, entriesCount, prefix, connector);
          assert drawn == DirectoryBlock(entry, index, entriesCount, prefix, connector, sep);
        } else {
          AddFile(entry, prefix, connector);
          assert drawn == [FileLine(prefix, connector, entry.name)];
        }
        FolderLinesStep(folder, index, prefix, sep);
        ConcatAssoc(old(tree), FolderLines(folder, index, prefix, sep), drawn);
      }
    }

    /** Appends a directory's line, its contents under the extended prefix,
        and the extended prefix stripped of trailing whitespace. */
    method AddDirectory(directory: Entry, index: int, entriesCount: int, prefix: string, connector: string)
      requires directory.Dir?
      modifies this
      decreases directory, 0
      ensures tree == old(tree) + DirectoryBlock(directory, index, entriesCount, prefix, connector, sep)
    {
      tree := tree + [prefix + connector + " " + directory.name + [sep]];
      var inner := prefix;
      if index != entriesCount - 1 {
        inner := inner + PIPE_PREFIX;
      } else {
        inner := inner + SPACE_PREFIX;
      }
      TreeBody(directory.children, inner);
      tree := tree + [RStrip(inner)];
    }

    /** Appends the line of an entry drawn as a file. */
    method AddFile(file: Entry, prefix: string, connector: string)
      modifies this
      ensures tree == old(tree) + [FileLine(prefix, connector, file.name)]
    {
      tree := tree + [prefix + connector + " " + file.name];
    }
  }
}
