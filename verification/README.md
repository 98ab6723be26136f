# folder-structure tree renderer, modelled in Dafny

folder-structure prints a directory tree with box-drawing connectors. Its
renderer, `_TreeGenerator` in `folder_structure/tree.py`, keeps a list of
lines and appends to it in three steps:

1. the head: the root path followed by the path separator, then a lone `│`;
2. a depth-first walk of each folder, whose entries are sorted with a stable
   sort on the key `is_file()`, so that everything that is not a file comes
   before the files, each group in listing order;
3. for each entry, `└──` if it is the last one of its folder and `├──`
   otherwise; a directory gets its own line (name plus separator), then its
   contents under a prefix extended by `│   ` (siblings follow) or four
   blanks (it was the last), then a spacer line: that extended prefix with
   trailing whitespace stripped. Every other entry gets one line.

The model has two modules.

- `Tree` (`tree.dfy`): the glyphs, the folder tree as a finite datatype
  `Entry = Dir(name, children) | File(name) | Other(name)`, the sort, Python's
  `str.rstrip()`, the lines as functions of the tree (`Render`, `BodyLines`,
  `FolderLines`, `EntryLines`, `DirectoryBlock`), and the class
  `TreeGenerator`, whose field `tree: seq<string>` is the list the source
  appends to. Its methods `BuildTree`, `TreeHead`, `TreeBody` (a `for` loop
  over the sorted entries), `AddDirectory` and `AddFile` are proved to leave
  `tree` equal to its old value followed by exactly the lines the functions
  describe.
- `TreeProperties` (`tree_properties.dfy`): what the functions promise:
  the sort puts non-files first, is stable, and is the only such order; the
  last entry of a folder, and only it, gets the elbow; the number of lines;
  the shape of every prefix and spacer line; two worked trees.

`Dir` is an entry for which `is_dir()` holds, `File` one for which `is_file()`
holds, `Other` one for which neither does (a broken symbolic link, a socket).
Because the sort key is `is_file()` but the branch tests `is_dir()`, an
`Other` entry sorts among the directories and is drawn as a file
(`ExampleBrokenLink`). `os.sep` is the constructor parameter `sep`.

After the contents of a directory the code always appends the spacer line
(tree.py:117); under a top-level directory with later siblings that spacer is
a lone `│`. So a root holding `sub/a.txt` and `b.txt` is drawn in six lines,
the spacer `│` standing between `│   └── a.txt` and `└── b.txt`, which
`ExampleTree` proves.

Calling `BuildTree` twice on one generator appends the head and body a second
time, because the list is never cleared; the contract
`tree == old(tree) + Render(...)` states this. A fresh generator over an
unchanged tree always yields the same lines, since `Render` is a function.

## Model

| member | source | states |
|---|---|---|
| `Tree.SortEntries` | folder_structure/tree.py:87-89 | the sorted entries are as many as the listed ones, so `entries_count` is the listing's size |
| `Tree.SortIsPermutation` | folder_structure/tree.py:88 | sorting neither loses, duplicates nor invents an entry (equal multisets) |
| `Tree.OfKind` | folder_structure/tree.py:88 | the entries selected for one value of the key `is_file()` all have that key and are no more than the listing |
| `Tree.RStrip` | folder_structure/tree.py:117 | `rstrip()` returns a prefix of its input that does not end in whitespace, and everything it removed is whitespace (Python's `isspace` set) |
| `Tree.IsSpace` | folder_structure/tree.py:117 | defines the characters `rstrip()` removes: those for which Python's `str.isspace` holds (no contract; `RStrip` is stated in terms of it) |
| `Tree.ChildPrefix` | folder_structure/tree.py:112-115 | defines the prefix handed to a directory's contents: the parent prefix plus the pipe unit when siblings follow, the blank unit under the last entry (no contract; `ChildPrefixIsIndent`, `RStripUnit` and `SpacerShape` state its properties) |
| `Tree.DirectoryLine` | folder_structure/tree.py:111 | defines a directory's line: prefix, connector, a blank, the name and the separator (no contract; `EntryLineAt` states it) |
| `Tree.FileLine` | folder_structure/tree.py:127 | defines the line of an entry drawn as a file: prefix, connector, a blank and the name, without a separator (no contract; `EntryLineAt` states it) |
| `Tree.HeadLines` | folder_structure/tree.py:75-76 | defines the two head lines: the root path plus separator, then a lone pipe (no contract; `RenderLineCount` states it) |
| `Tree.BodyLines` | folder_structure/tree.py:87-97 | defines a folder's lines as those of all its sorted entries, in order (no contract; `BodyLineCount` and `BodyLineShapes` state its properties) |
| `Tree.FolderLines` | folder_structure/tree.py:88-97 | defines the lines of the first k sorted entries, each with the connector for its index among all of them (no contract; `TreeBody`'s loop invariant and `ExactlyLastGetsElbow` use it) |
| `Tree.EntryLines` | folder_structure/tree.py:91-97 | defines one entry's lines: the directory's block when `is_dir()` holds, one file line otherwise (no contract; `EntryLineAt` and `ExampleBrokenLink` state its cases) |
| `Tree.DirectoryBlock` | folder_structure/tree.py:111-117 | defines a directory's block: its line, its contents under the extended prefix, then that prefix stripped (no contract; `AddDirectory` appends exactly it and `EmptyDirectoryTwoLines` states the empty case) |
| `Tree.Render` | folder_structure/tree.py:67-69 | defines the whole output: the head lines followed by the root folder's lines under the empty prefix (no contract; `BuildTree`, `RenderLineCount` and `ExampleTree` state its properties) |
| `Tree.TreeGenerator.constructor` | folder_structure/tree.py:50-58 | a new generator keeps the root, its listing and the separator and starts with no lines |
| `Tree.TreeGenerator.BuildTree` | folder_structure/tree.py:60-69 | appends the head and the root's body to the lines and returns the whole list |
| `Tree.TreeGenerator.TreeHead` | folder_structure/tree.py:71-76 | appends the root path plus separator, then a lone pipe, and changes nothing else |
| `Tree.TreeGenerator.TreeBody` | folder_structure/tree.py:78-97 | appends exactly the lines of the folder's sorted entries under the prefix; lines already there are kept |
| `Tree.TreeGenerator.AddDirectory` | folder_structure/tree.py:99-117 | appends the directory line, then the contents under the extended prefix, then the stripped extended prefix: one contiguous block after the old lines |
| `Tree.TreeGenerator.AddFile` | folder_structure/tree.py:119-127 | appends exactly one line, `prefix + connector + " " + name`, and does not recurse |
| `TreeProperties.SortPutsNonFilesFirst` | folder_structure/tree.py:88 | after sorting, no file comes before an entry that is not a file |
| `TreeProperties.SortIsStable` | folder_structure/tree.py:88 | after sorting, the non-files are in listing order among themselves, and so are the files |
| `TreeProperties.KeySortedSplit` | folder_structure/tree.py:88 | an order with no file before a non-file is its non-files followed by its files |
| `TreeProperties.StableSortIsUnique` | folder_structure/tree.py:88 | any order that puts no file before a non-file and keeps each kind in listing order is exactly the renderer's order |
| `TreeProperties.SortTwo` | folder_structure/tree.py:88 | two entries change places exactly when a file is listed before a non-file |
| `TreeProperties.EntryLineAt` | folder_structure/tree.py:89-97 | the line at the start of the i-th sorted entry's block is `prefix + connector + " " + name`, with the separator after a directory's name, and the connector chosen for index i of the folder's count |
| `TreeProperties.ExactlyLastGetsElbow` | folder_structure/tree.py:89-91 | of a folder's entry lines, the last one and only it starts with `prefix + └──`; every other one starts with `prefix + ├──` |
| `TreeProperties.BodyLineCount` | folder_structure/tree.py:87-97 | a folder's lines number one per entry drawn as a file plus two per directory, counted at every depth |
| `TreeProperties.RenderLineCount` | folder_structure/tree.py:67-76 | the output starts with the root plus separator and a lone pipe, has two lines more than the body, and is exactly those two lines for an empty root |
| `TreeProperties.EmptyDirectoryTwoLines` | folder_structure/tree.py:111-117 | an empty directory gives exactly its own line and its spacer line |
| `TreeProperties.ChildPrefixIsIndent` | folder_structure/tree.py:112-115 | a prefix made of four-character pipe or blank units stays one, one unit deeper, when extended for a directory's contents |
| `TreeProperties.RStripUnit` | folder_structure/tree.py:117 | stripping a prefix ending in a blank unit strips through the unit; one ending in a pipe unit keeps the pipe and drops its three blanks |
| `TreeProperties.SpacerShape` | folder_structure/tree.py:117 | a stripped prefix is empty or ends with the pipe |
| `TreeProperties.PipeUnitSpacer` | folder_structure/tree.py:113-117 | the spacer under a top-level directory with later siblings is a lone pipe |
| `TreeProperties.BodyLineShapes` | folder_structure/tree.py:110-117 | every line of a folder drawn under a prefix p of whole units either is an indent extending p followed by a connector and a space, or is a spacer: an indent deeper than p and extending it, stripped of trailing whitespace |
| `TreeProperties.ExampleTree` | folder_structure/tree.py:60-69 | a root listing a file `b` and then a directory `sub` holding `a` renders as root plus separator, pipe, `├── sub` plus separator, `│   └── a`, the spacer `│`, `└── b` |
| `TreeProperties.ExampleBrokenLink` | folder_structure/tree.py:88-97 | an entry that is neither file nor directory, listed after a file, is drawn before it and as a file: one line, no separator |

## Left out

- Reading the filesystem (`Path.iterdir`, `is_file`, `is_dir`, tree.py:87-92): each folder is given as a finite `Entry` tree in listing order, so the platform's listing order is an input.
- Symbolic link cycles: a finite datatype cannot express them. The code does not guard against them; the walk ends when the operating system refuses to resolve the link chain (`is_dir()` and `is_file()` then report false, so the entry is drawn as a file) or, at the latest, in Python's `RecursionError`.
- Python's recursion limit: each level of nesting costs two frames (`_tree_body` and `_add_directory`), so a tree nested a few hundred levels deep raises `RecursionError` in the code, while `Render` and the methods draw trees of any depth.
- Tree.TreeGenerator.BuildTree: returns the list's value, while `build_tree` returns the list object itself (tree.py:69); in the code a second call also grows the list the first call returned. The model has no aliasing of the line list.
- File names are `seq<char>` of Unicode scalar values: Dafny's `char` cannot hold the lone surrogates Python uses for undecodable POSIX file names (surrogateescape), so such names are not modelled.
- Permission and I/O errors raised mid-walk: the code does not handle them; the model has no failing listing.
- `str(pathlib.Path(root_dir))` normalisation of the root path (for example dropping a trailing separator): `rootDir` is the string after that normalisation.
- `FolderTree` and its `generate`, which only prints each line of `build_tree()` (tree.py:29-40), and the logging setup (tree.py:25-26, 57).
- `folder_structure/cli.py` (argument parsing, the `is_dir` check on the root, `sys.exit`) and `folder_structure/info.py` (a fixed banner) are not part of this model.
