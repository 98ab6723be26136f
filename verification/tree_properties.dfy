/**
  What the renderer of folder_structure/tree.py promises about its output,
  proved about the functions of module Tree that the generator's methods
  are proved against.
 */
module TreeProperties {
  import opened Tree

  // ---------------------------------------------------------------------
  // Ordering within one folder

  /** No file comes before an entry that is not a file. */
  predicate KeySorted(r: seq<Entry>)
  {
    forall i, j :: 0 <= i < j < |r| && r[i].File? ==> r[j].File?
  }

  lemma {:induction false} OfKindConcat(a: seq<Entry>, b: seq<Entry>, isFile: bool)
    ensures OfKind(a + b, isFile) == OfKind(a, isFile) + OfKind(b, isFile)
  {
    if a == [] {
      assert a + b == b;
    } else {
      assert (a + b)[0] == a[0] && (a + b)[1..] == a[1..] + b;
      OfKindConcat(a[1..], b, isFile);
    }
  }

  /** Selecting by a key that every entry has keeps all of them; selecting
      by the other key keeps none. */
  lemma {:induction false} OfKindUniform(s: seq<Entry>, isFile: bool)
    requires forall i :: 0 <= i < |s| ==> s[i].File? == isFile
    ensures OfKind(s, isFile) == s
    ensures OfKind(s, !isFile) == []
  {
    if s != [] {
      OfKindUniform(s[1..], isFile);
    }
  }

  /** Sorting puts every entry that is not a file before every file. */
  lemma SortPutsNonFilesFirst(es: seq<Entry>)
    ensures KeySorted(SortEntries(es))
  {
    var d, f := OfKind(es, false), OfKind(es, true);
    var r := SortEntries(es);
    forall k | 0 <= k < |r|
      ensures r[k].File? <==> k >= |d|
    {
      if k < |d| { assert r[k] == d[k]; } else { assert r[k] == f[k - |d|]; }
    }
  }

  /** The sort is stable: the non-files keep their listing order among
      themselves, and so do the files. */
  lemma {:induction false} SortIsStable(es: seq<Entry>)
    ensures OfKind(SortEntries(es), false) == OfKind(es, false)
    ensures OfKind(SortEntries(es), true) == OfKind(es, true)
  {
    var d, f := OfKind(es, false), OfKind(es, true);
    OfKindConcat(d, f, false);
    OfKindConcat(d, f, true);
    OfKindUniform(d, false);
    OfKindUniform(f, true);
  }

  /** A listing sorted by key is its non-files followed by its files. */
  lemma {:induction false} KeySortedSplit(r: seq<Entry>)
    requires KeySorted(r)
    ensures r == OfKind(r, false) + OfKind(r, true)
  {
    if r != [] {
      if r[0].File? {
        OfKindUniform(r, true);
      } else {
        assert KeySorted(r[1..]) by {
          forall i, j | 0 <= i < j < |r[1..]| && r[1..][i].File?
            ensures r[1..][j].File?
          {
            assert r[i + 1].File?;
          }
        }
        KeySortedSplit(r[1..]);
      }
    }
  }

  /** The order the renderer draws a folder in is the only order that puts
      no file before a non-file and keeps each kind in listing order: any
      stable sort on the key `is_file()` gives exactly it. */
  lemma {:induction false} StableSortIsUnique(es: seq<Entry>, r: seq<Entry>)
    requires KeySorted(r)
    requires OfKind(r, false) == OfKind(es, false)
    requires OfKind(r, true) == OfKind(es, true)
    ensures r == SortEntries(es)
  {
    KeySortedSplit(r);
  }

  // ---------------------------------------------------------------------
  // Connectors: where each entry's own line is, and what it looks like

  /** The index, in a folder's lines, of the line naming its `i`-th sorted
      entry. */
  function EntryStart(listing: seq<Entry>, i: nat, prefix: string, sep: char): nat
    requires i <= |listing|
  {
    |FolderLines(listing, i, prefix, sep)|
  }

  /** The line naming an entry: `prefix + connector + " " + name`, with the
      separator after the name of a directory. */
  function NameLine(prefix: string, connector: string, e: Entry, sep: char): string
  {
    prefix + connector + " " + e.name + (if e.Dir? then [sep] else [])
  }

  lemma {:induction false} FolderLinesGrow(listing: seq<Entry>, i: nat, j: nat, prefix: string, sep: char)
    requires i <= j <= |listing|
    ensures FolderLines(listing, i, prefix, sep) <= FolderLines(listing, j, prefix, sep)
    decreases j
  {
    if i < j {
      FolderLinesGrow(listing, i, j - 1, prefix, sep);
      FolderLinesStep(listing, j - 1, prefix, sep);
    }
  }

  /** Every entry's lines start with the line naming it. */
  lemma EntryLinesStart(e: Entry, index: int, count: int, prefix: string, sep: char)
    ensures |EntryLines(e, index, count, prefix, sep)| >= 1
    ensures EntryLines(e, index, count, prefix, sep)[0] == NameLine(prefix, Connector(index, count), e, sep)
  {
  }

  /** The line at `EntryStart(listing, i, ...)` names the `i`-th sorted
      entry, behind the connector for index `i` of `|listing|`. */
  lemma {:induction false} EntryLineAt(listing: seq<Entry>, i: nat, prefix: string, sep: char)
    requires i < |listing|
    ensures EntryStart(listing, i, prefix, sep) < |BodyLines(listing, prefix, sep)|
    ensures BodyLines(listing, prefix, sep)[EntryStart(listing, i, prefix, sep)]
            == NameLine(prefix, Connector(i, |listing|), SortEntries(listing)[i], sep)
  {
    var e := SortEntries(listing)[i];
    FolderLinesStep(listing, i, prefix, sep);
    EntryLinesStart(e, i, |listing|, prefix, sep);
    FolderLinesGrow(listing, i + 1, |listing|, prefix, sep);
    var before := FolderLines(listing, i, prefix, sep);
    var upTo := FolderLines(listing, i + 1, prefix, sep);
    assert upTo[|before|] == EntryLines(e, i, |listing|, prefix, sep)[0];
  }

  /** In a non-empty folder, exactly the last sorted entry is drawn with the
      elbow, and every earlier entry with the tee. */
  lemma ExactlyLastGetsElbow(listing: seq<Entry>, prefix: string, sep: char)
    ensures forall i :: 0 <= i < |listing| ==>
      EntryStart(listing, i, prefix, sep) < |BodyLines(listing, prefix, sep)| &&
      var line := BodyLines(listing, prefix, sep)[EntryStart(listing, i, prefix, sep)];
      (prefix + ELBOW <= line <==> i == |listing| - 1) && (prefix + TEE <= line <==> i != |listing| - 1)
  {
    forall i | 0 <= i < |listing|
      ensures EntryStart(listing, i, prefix, sep) < |BodyLines(listing, prefix, sep)|
      ensures var line := BodyLines(listing, prefix, sep)[EntryStart(listing, i, prefix, sep)];
        (prefix + ELBOW <= line <==> i == |listing| - 1) && (prefix + TEE <= line <==> i != |listing| - 1)
    {
      EntryLineAt(listing, i, prefix, sep);
      var line := BodyLines(listing, prefix, sep)[EntryStart(listing, i, prefix, sep)];
      var c := Connector(i, |listing|);
      assert line[|prefix|] == c[0];
      if i == |listing| - 1 {
        assert (prefix + ELBOW) == line[..|prefix| + 3];
        assert !(prefix + TEE <= line) by { assert (prefix + TEE)[|prefix|] != line[|prefix|]; }
      } else {
        assert (prefix + TEE) == line[..|prefix| + 3];
        assert !(prefix + ELBOW <= line) by { assert (prefix + ELBOW)[|prefix|] != line[|prefix|]; }
      }
    }
  }

  // ---------------------------------------------------------------------
  // Line count

  /** The number of directories anywhere under a listing. */
  function DirsIn(es: seq<Entry>): nat
    decreases es
  {
    if es == [] then 0 else DirsUnder(es[0]) + DirsIn(es[1..])
  }

  function DirsUnder(e: Entry): nat
    decreases e
  {
    if e.Dir? then 1 + DirsIn(e.children) else 0
  }

  /** The number of entries drawn as files (files and entries of other
      kinds) anywhere under a listing. */
  function FilesIn(es: seq<Entry>): nat
    decreases es
  {
    if es == [] then 0 else FilesUnder(es[0]) + FilesIn(es[1..])
  }

  function FilesUnder(e: Entry): nat
    decreases e
  {
    if e.Dir? then FilesIn(e.children) else 1
  }

  lemma {:induction false} CountsConcat(a: seq<Entry>, b: seq<Entry>)
    ensures DirsIn(a + b) == DirsIn(a) + DirsIn(b)
    ensures FilesIn(a + b) == FilesIn(a) + FilesIn(b)
  {
    if a == [] {
      assert a + b == b;
    } else {
      assert (a + b)[0] == a[0] && (a + b)[1..] == a[1..] + b;
      CountsConcat(a[1..], b);
    }
  }

  lemma CountsStep(s: seq<Entry>, k: nat)
    requires 0 < k <= |s|
    ensures DirsIn(s[..k]) == DirsIn(s[..k - 1]) + DirsUnder(s[k - 1])
    ensures FilesIn(s[..k]) == FilesIn(s[..k - 1]) + FilesUnder(s[k - 1])
  {
    assert s[..k] == s[..k - 1] + [s[k - 1]];
    CountsConcat(s[..k - 1], [s[k - 1]]);
    assert [s[k - 1]][1..] == [];
  }

  /** Sorting a listing changes neither count. */
  lemma {:induction false} CountsSorted(es: seq<Entry>)
    ensures DirsIn(SortEntries(es)) == DirsIn(es)
    ensures FilesIn(SortEntries(es)) == FilesIn(es)
  {
    CountsConcat(OfKind(es, false), OfKind(es, true));
    CountsSplit(es);
  }

  lemma {:induction false} CountsSplit(es: seq<Entry>)
    ensures DirsIn(OfKind(es, false)) + DirsIn(OfKind(es, true)) == DirsIn(es)
    ensures FilesIn(OfKind(es, false)) + FilesIn(OfKind(es, true)) == FilesIn(es)
  {
    if es != [] {
      CountsSplit(es[1..]);
    }
  }

  /** A folder's body has one line per entry drawn as a file and two per
      directory (its own line and its spacer), at every depth. */
  lemma {:induction false} BodyLineCount(listing: seq<Entry>, prefix: string, sep: char)
    ensures |BodyLines(listing, prefix, sep)| == FilesIn(listing) + 2 * DirsIn(listing)
    decreases listing, 2
  {
    FolderLineCount(listing, |listing|, prefix, sep);
    assert SortEntries(listing)[..|listing|] == SortEntries(listing);
    CountsSorted(listing);
  }

  lemma {:induction false} FolderLineCount(listing: seq<Entry>, k: nat, prefix: string, sep: char)
    requires k <= |listing|
    ensures var drawn := SortEntries(listing)[..k];
      |FolderLines(listing, k, prefix, sep)| == FilesIn(drawn) + 2 * DirsIn(drawn)
    decreases listing, 1, k
  {
    if k > 0 {
      var sorted := SortEntries(listing);
      SortedEntryIsListed(listing, k - 1);
      FolderLineCount(listing, k - 1, prefix, sep);
      EntryLineCount(sorted[k - 1], k - 1, |listing|, prefix, sep);
      FolderLinesStep(listing, k - 1, prefix, sep);
      CountsStep(sorted, k);
    }
  }

  lemma {:induction false} EntryLineCount(e: Entry, index: int, count: int, prefix: string, sep: char)
    ensures |EntryLines(e, index, count, prefix, sep)| == FilesUnder(e) + 2 * DirsUnder(e)
    decreases e, 0
  {
    if e.Dir? {
      BodyLineCount(e.children, ChildPrefix(prefix, index, count), sep);
    }
  }

  /** The whole output has the two head lines, then one line per entry drawn
      as a file and two per directory; an empty root gives just the two
      head lines. */
  lemma RenderLineCount(rootDir: string, rootListing: seq<Entry>, sep: char)
    ensures |Render(rootDir, rootListing, sep)| == 2 + FilesIn(rootListing) + 2 * DirsIn(rootListing)
    ensures Render(rootDir, rootListing, sep)[..2] == [rootDir + [sep], PIPE]
    ensures rootListing == [] ==> Render(rootDir, rootListing, sep) == [rootDir + [sep], PIPE]
  {
    BodyLineCount(rootListing, "", sep);
  }

  /** An empty directory is drawn as its own line and its spacer line. */
  lemma EmptyDirectoryTwoLines(name: string, index: int, count: int, prefix: string, sep: char)
    ensures EntryLines(Dir(name, []), index, count, prefix, sep)
            == [NameLine(prefix, Connector(index, count), Dir(name, []), sep),
                RStrip(ChildPrefix(prefix, index, count))]
  {
    assert BodyLines([], ChildPrefix(prefix, index, count), sep) == [];
  }

  // ---------------------------------------------------------------------
  // Prefixes and spacer lines

  /** A prefix is a run of four-character units, each a continuing pipe or
      blank space; its depth is its number of units. */
  predicate IsIndent(p: string)
    decreases |p|
  {
    p == [] || (|p| >= 4 && p[|p| - 4..] in {PIPE_PREFIX, SPACE_PREFIX} && IsIndent(p[..|p| - 4]))
  }

  /** The prefix handed to a directory's contents keeps the parent's prefix
      and adds one unit: the pipe unit when siblings follow, the blank unit
      under the last entry. */
  lemma ChildPrefixShape(prefix: string, index: int, count: int)
    ensures |ChildPrefix(prefix, index, count)| == |prefix| + 4
    ensures ChildPrefix(prefix, index, count)[..|prefix|] == prefix
    ensures ChildPrefix(prefix, index, count)[|prefix|..]
            == (if index != count - 1 then PIPE_PREFIX else SPACE_PREFIX)
  {
  }

  /** The prefix handed to a directory's contents is one unit deeper. */
  lemma ChildPrefixIsIndent(prefix: string, index: int, count: int)
    requires IsIndent(prefix)
    ensures IsIndent(ChildPrefix(prefix, index, count))
    ensures |ChildPrefix(prefix, index, count)| == |prefix| + 4
  {
    var p := ChildPrefix(prefix, index, count);
    assert p[..|p| - 4] == prefix;
  }

  lemma RStripAppend(s: string, c: char)
    ensures RStrip(s + [c]) == if IsSpace(c) then RStrip(s) else s + [c]
  {
    assert (s + [c])[..|s|] == s;
  }

  /** A stripped prefix never ends in whitespace, and it is either empty or
      ends with the pipe. */
  lemma {:induction false} SpacerShape(q: string)
    requires IsIndent(q)
    ensures RStrip(q) == [] || RStrip(q)[|RStrip(q)| - 1] == PIPE[0]
    decreases |q|
  {
    if q != [] {
      var rest := q[..|q| - 4];
      SpacerShape(rest);
      assert q == rest + q[|q| - 4..];
      RStripUnit(rest, q[|q| - 4..]);
    }
  }

  /** Stripping after a blank unit strips through it; stripping after a
      pipe unit stops at the pipe. */
  lemma RStripUnit(rest: string, unit: string)
    requires unit == PIPE_PREFIX || unit == SPACE_PREFIX
    ensures RStrip(rest + unit) == if unit == PIPE_PREFIX then rest + PIPE else RStrip(rest)
  {
    var c0, c1, c2, c3 := unit[0], unit[1], unit[2], unit[3];
    assert rest + unit == rest + [c0] + [c1] + [c2] + [c3];
    RStripAppend(rest + [c0] + [c1] + [c2], c3);
    RStripAppend(rest + [c0] + [c1], c2);
    RStripAppend(rest + [c0], c1);
    RStripAppend(rest, c0);
  }

  /** `q` is an indent that extends `p`. */
  ghost predicate IndentUnder(q: string, p: string)
  {
    IsIndent(q) && p <= q
  }

  /** A line naming an entry, drawn under an indent that extends `p`. */
  ghost predicate IsNameLineUnder(line: string, p: string)
  {
    exists q {:trigger IndentUnder(q, p)} :: IndentUnder(q, p) && (q + TEE + " " <= line || q + ELBOW + " " <= line)
  }

  /** A spacer line closing a directory drawn under `p`: an indent deeper
      than `p` and extending it, stripped of trailing whitespace. */
  ghost predicate IsSpacerUnder(line: string, p: string)
  {
    exists q {:trigger IndentUnder(q, p)} :: IndentUnder(q, p) && |q| > |p| && line == RStrip(q)
  }

  /** A line names an entry or is a spacer, under `p`. */
  ghost predicate DrawnUnder(line: string, p: string)
  {
    IsNameLineUnder(line, p) || IsSpacerUnder(line, p)
  }

  /** Every line is drawn under `p`, stated line by line from the end. */
  ghost predicate AllDrawnUnder(lines: seq<string>, p: string)
    decreases |lines|
  {
    lines == [] || (AllDrawnUnder(lines[..|lines| - 1], p) && DrawnUnder(lines[|lines| - 1], p))
  }

  lemma {:induction false} AllDrawnUnderIndex(lines: seq<string>, p: string)
    requires AllDrawnUnder(lines, p)
    ensures forall i :: 0 <= i < |lines| ==> DrawnUnder(lines[i], p)
    decreases |lines|
  {
    if lines != [] {
      var init := lines[..|lines| - 1];
      AllDrawnUnderIndex(init, p);
      forall i | 0 <= i < |lines| ensures DrawnUnder(lines[i], p) {
        if i < |init| {
          assert lines[i] == init[i];
        }
      }
    }
  }

  lemma {:induction false} AllDrawnUnderConcat(a: seq<string>, b: seq<string>, p: string)
    requires AllDrawnUnder(a, p) && AllDrawnUnder(b, p)
    ensures AllDrawnUnder(a + b, p)
    decreases |b|
  {
    if b == [] {
      assert a + b == a;
    } else {
      var init := b[..|b| - 1];
      AllDrawnUnderConcat(a, init, p);
      assert (a + b)[..|a + b| - 1] == a + init;
      assert (a + b)[|a + b| - 1] == b[|b| - 1];
    }
  }

  /** A line drawn under an indent is drawn under every prefix of it. */
  lemma DrawnUnderOuter(line: string, inner: string, p: string)
    requires p <= inner && DrawnUnder(line, inner)
    ensures DrawnUnder(line, p)
  {
    if IsNameLineUnder(line, inner) {
      var q :| IndentUnder(q, inner) && (q + TEE + " " <= line || q + ELBOW + " " <= line);
      assert IndentUnder(q, p);
    } else {
      var q :| IndentUnder(q, inner) && |q| > |inner| && line == RStrip(q);
      assert IndentUnder(q, p);
    }
  }

  /** Lines drawn under an indent are drawn under every prefix of it. */
  lemma {:induction false} AllDrawnUnderOuter(lines: seq<string>, inner: string, p: string)
    requires p <= inner
    requires AllDrawnUnder(lines, inner)
    ensures AllDrawnUnder(lines, p)
    decreases |lines|
  {
    if lines != [] {
      AllDrawnUnderOuter(lines[..|lines| - 1], inner, p);
      DrawnUnderOuter(lines[|lines| - 1], inner, p);
    }
  }

  /** Every line of a folder drawn under an indent `p` either names an
      entry behind an indent that extends `p` and a connector, or is a
      spacer: an indent deeper than `p`, stripped. */
  lemma BodyLineShapes(listing: seq<Entry>, p: string, sep: char)
    requires IsIndent(p)
    ensures forall i :: 0 <= i < |BodyLines(listing, p, sep)| ==> DrawnUnder(BodyLines(listing, p, sep)[i], p)
  {
    FolderLineShapes(listing, |listing|, p, sep);
    AllDrawnUnderIndex(BodyLines(listing, p, sep), p);
  }

  lemma {:induction false} FolderLineShapes(listing: seq<Entry>, k: nat, p: string, sep: char)
    requires IsIndent(p)
    requires k <= |listing|
    ensures AllDrawnUnder(FolderLines(listing, k, p, sep), p)
    decreases listing, 1, k
  {
    if k > 0 {
      FolderLineShapes(listing, k - 1, p, sep);
      FolderShapesStep(listing, k - 1, p, sep);
    }
  }

  /** The lines of one more sorted entry are drawn under `p` as well. */
  lemma {:induction false} FolderShapesStep(listing: seq<Entry>, k: nat, p: string, sep: char)
    requires IsIndent(p)
    requires k < |listing|
    requires AllDrawnUnder(FolderLines(listing, k, p, sep), p)
    ensures AllDrawnUnder(FolderLines(listing, k + 1, p, sep), p)
    decreases listing, 0, k
  {
    var e := SortEntries(listing)[k];
    SortedEntryIsListed(listing, k);
    EntryLineShapes(e, k, |listing|, p, sep);
    FolderLinesStep(listing, k, p, sep);
    AllDrawnUnderConcat(FolderLines(listing, k, p, sep), EntryLines(e, k, |listing|, p, sep), p);
  }

  lemma {:induction false} EntryLineShapes(e: Entry, index: int, count: int, p: string, sep: char)
    requires IsIndent(p)
    ensures AllDrawnUnder(EntryLines(e, index, count, p, sep), p)
    decreases e, 1
  {
    if e.Dir? {
      DirectoryBlockShapes(e, index, count, p, Connector(index, count), sep);
    } else {
      var head := FileLine(p, Connector(index, count), e.name);
      assert IndentUnder(p, p) && p + Connector(index, count) + " " <= head;
      assert IsNameLineUnder(head, p);
      assert EntryLines(e, index, count, p, sep) == [head];
    }
  }

  lemma {:induction false} DirectoryBlockShapes(directory: Entry, index: int, count: int, p: string, connector: string, sep: char)
    requires directory.Dir? && IsIndent(p)
    requires connector == Connector(index, count)
    ensures AllDrawnUnder(DirectoryBlock(directory, index, count, p, connector, sep), p)
    decreases directory, 0
  {
    ChildPrefixIsIndent(p, index, count);
    FolderLineShapes(directory.children, |directory.children|, ChildPrefix(p, index, count), sep);
    DirectoryShapesStep(directory, index, count, p, connector, sep);
  }

  /** A directory's block keeps the shapes of its contents' lines, under the
      outer indent. */
  lemma DirectoryShapesStep(directory: Entry, index: int, count: int, p: string, connector: string, sep: char)
    requires directory.Dir? && IsIndent(p)
    requires connector == Connector(index, count)
    requires AllDrawnUnder(BodyLines(directory.children, ChildPrefix(p, index, count), sep), ChildPrefix(p, index, count))
    ensures AllDrawnUnder(DirectoryBlock(directory, index, count, p, connector, sep), p)
  {
    var head := DirectoryLine(p, connector, directory.name, sep);
    assert IsNameLineUnder(head, p) by {
      assert IndentUnder(p, p) && p + connector + " " <= head;
    }
    var inner := ChildPrefix(p, index, count);
    InnerSpacerUnder(p, index, count);
    BlockShapes(head, BodyLines(directory.children, inner, sep), RStrip(inner), inner, p);
  }

  /** The spacer closing a directory's block is a spacer under the outer
      indent, and the inner prefix extends the outer one. */
  lemma InnerSpacerUnder(p: string, index: int, count: int)
    requires IsIndent(p)
    ensures p <= ChildPrefix(p, index, count)
    ensures IsSpacerUnder(RStrip(ChildPrefix(p, index, count)), p)
  {
    ChildPrefixIsIndent(p, index, count);
    ChildPrefixShape(p, index, count);
    assert IndentUnder(ChildPrefix(p, index, count), p);
  }

  /** A name line, lines drawn under a deeper prefix, and a spacer, all
      under `p`, together are drawn under `p`. */
  lemma BlockShapes(head: string, body: seq<string>, spacer: string, inner: string, p: string)
    requires IsNameLineUnder(head, p) && IsSpacerUnder(spacer, p)
    requires p <= inner && AllDrawnUnder(body, inner)
    ensures AllDrawnUnder([head] + body + [spacer], p)
  {
    AllDrawnUnderOuter(body, inner, p);
    AllDrawnUnderConcat([head], body, p);
    AllDrawnUnderConcat([head] + body, [spacer], p);
  }

  // ---------------------------------------------------------------------
  // Worked examples

  /** The spacer under a directory that has siblings after it is a lone
      pipe. */
  lemma PipeUnitSpacer()
    ensures RStrip(PIPE_PREFIX) == PIPE
  {
    RStripUnit("", PIPE_PREFIX);
    assert "" + PIPE_PREFIX == PIPE_PREFIX;
  }

  /** Two entries swap exactly when a file is listed before a non-file. */
  lemma SortTwo(x: Entry, y: Entry)
    ensures SortEntries([x, y]) == if x.File? && !y.File? then [y, x] else [x, y]
  {
    var s := [x, y];
    assert s[1..] == [y] && s[1..][1..] == [];
    assert OfKind(s, false) == (if x.File? then [] else [x]) + (if y.File? then [] else [y]);
    assert OfKind(s, true) == (if x.File? then [x] else []) + (if y.File? then [y] else []);
  }

  lemma OneEntryBody(listing: seq<Entry>, prefix: string, sep: char)
    requires |listing| == 1
    ensures BodyLines(listing, prefix, sep) == EntryLines(SortEntries(listing)[0], 0, 1, prefix, sep)
  {
    FolderLinesStep(listing, 0, prefix, sep);
  }

  lemma TwoEntryBody(listing: seq<Entry>, prefix: string, sep: char)
    requires |listing| == 2
    ensures BodyLines(listing, prefix, sep)
      == EntryLines(SortEntries(listing)[0], 0, 2, prefix, sep) + EntryLines(SortEntries(listing)[1], 1, 2, prefix, sep)
  {
    var e0 := EntryLines(SortEntries(listing)[0], 0, 2, prefix, sep);
    FolderLinesStep(listing, 0, prefix, sep);
    assert FolderLines(listing, 0, prefix, sep) == [];
    assert [] + e0 == e0;
    FolderLinesStep(listing, 1, prefix, sep);
  }

  /** A root holding a file `b` and a directory `sub` that holds a file
      `a`, listed file first: the directory is drawn first, and its block
      closes with a spacer line. */
  lemma ExampleTree(root: string, sub: string, a: string, b: string, sep: char)
    ensures Render(root, [File(b), Dir(sub, [File(a)])], sep)
      == [root + [sep], PIPE, TEE + " " + sub + [sep], PIPE_PREFIX + ELBOW + " " + a, PIPE, ELBOW + " " + b]
  {
    var subDir := Dir(sub, [File(a)]);
    var listing := [File(b), subDir];
    SortTwo(File(b), subDir);
    TwoEntryBody(listing, "", sep);
    ExampleSubBlock(sub, a, sep);
    assert EntryLines(File(b), 1, 2, "", sep) == [ELBOW + " " + b] by {
      assert FileLine("", ELBOW, b) == ELBOW + " " + b;
    }
  }

  lemma ExampleSubBlock(sub: string, a: string, sep: char)
    ensures EntryLines(Dir(sub, [File(a)]), 0, 2, "", sep)
      == [TEE + " " + sub + [sep], PIPE_PREFIX + ELBOW + " " + a, PIPE]
  {
    var inner := [File(a)];
    assert SortEntries(inner) == inner by {
      assert inner[1..] == [];
    }
    assert BodyLines(inner, PIPE_PREFIX, sep) == [PIPE_PREFIX + ELBOW + " " + a] by {
      OneEntryBody(inner, PIPE_PREFIX, sep);
    }
    PipeUnitSpacer();
    assert ChildPrefix("", 0, 2) == PIPE_PREFIX by {
      assert "" + PIPE_PREFIX == PIPE_PREFIX;
    }
    assert DirectoryLine("", TEE, sub, sep) == TEE + " " + sub + [sep];
  }

  /** An entry that is neither a file nor a directory (a broken link) sorts
      with the directories, ahead of a file listed before it, but is drawn
      as a file: one line, no separator, nothing below it. */
  lemma ExampleBrokenLink(root: string, a: string, link: string, sep: char)
    ensures Render(root, [File(a), Other(link)], sep) == [root + [sep], PIPE, TEE + " " + link, ELBOW + " " + a]
  {
    var listing := [File(a), Other(link)];
    SortTwo(File(a), Other(link));
    TwoEntryBody(listing, "", sep);
    assert EntryLines(Other(link), 0, 2, "", sep) == [TEE + " " + link] by {
      assert FileLine("", TEE, link) == TEE + " " + link;
    }
    assert EntryLines(File(a), 1, 2, "", sep) == [ELBOW + " " + a] by {
      assert FileLine("", ELBOW, a) == ELBOW + " " + a;
    }
  }
}
