/**
 * The pattern resolver (`getFilesAndDeps`, index.js): expands the bundle's
 * `files` patterns, in order, into absolute glyph file paths, and collects
 * the file and directory dependencies the build must watch.
 */
module PatternResolver {
  import opened Js
  import opened NodeHost

  /** What `getFilesAndDeps` returns: `files`, `dependencies.directories`, `dependencies.files`. */
  datatype Resolved = Resolved(files: seq<string>, directories: seq<string>, fileDeps: seq<string>)

  const Empty := Resolved([], [], [])

  function Concat(a: Resolved, b: Resolved): Resolved
  {
    Resolved(a.files + b.files, a.directories + b.directories, a.fileDeps + b.fileDeps)
  }

  /** `paths.map(p => path.resolve(context, p))` */
  function ResolveEach(h: Host, context: string, paths: seq<string>): (r: seq<string>)
    ensures |r| == |paths|
    ensures forall i :: 0 <= i < |paths| ==> r[i] == h.resolve([Str(context), Str(paths[i])])
  {
    seq(|paths|, i requires 0 <= i < |paths| => h.resolve([Str(context), Str(paths[i])]))
  }

  /** The glob whose matches are the directories a glob pattern depends on. */
  function DirectoryGlob(h: Host, pattern: string): string
  {
    h.dirname(pattern) + "/"
  }

  /**
   * What one pattern adds: a literal its resolved path and itself as a file
   * dependency; a glob its resolved matches and the resolved matches of its
   * directory glob.
   */
  function Contribution(h: Host, context: string, pattern: string): Resolved
  {
    if h.hasMagic(pattern) then
      Resolved(ResolveEach(h, context, h.globSync(pattern, context)),
               ResolveEach(h, context, h.globSync(DirectoryGlob(h, pattern), context)),
               [])
    else
      Resolved([h.resolve([Str(context), Str(pattern)])], [], [pattern])
  }

  /** Reference definition: the patterns' contributions, concatenated in order. */
  function ResolveAll(h: Host, context: string, patterns: seq<string>): Resolved
  {
    if patterns == [] then Empty
    else Concat(Contribution(h, context, patterns[0]), ResolveAll(h, context, patterns[1..]))
  }

  /** The literal (glob-free) patterns, in order. */
  function Literals(h: Host, patterns: seq<string>): seq<string>
  {
    if patterns == [] then []
    else (if h.hasMagic(patterns[0]) then [] else [patterns[0]]) + Literals(h, patterns[1..])
  }

  lemma ConcatAssoc(a: Resolved, b: Resolved, c: Resolved)
    ensures Concat(a, Concat(b, c)) == Concat(Concat(a, b), c)
  {
    assert a.files + (b.files + c.files) == (a.files + b.files) + c.files;
    assert a.directories + (b.directories + c.directories) == (a.directories + b.directories) + c.directories;
    assert a.fileDeps + (b.fileDeps + c.fileDeps) == (a.fileDeps + b.fileDeps) + c.fileDeps;
  }

  /** Resolving a concatenation of pattern lists concatenates the results. */
  lemma {:induction false} ResolveAllAppend(h: Host, context: string, a: seq<string>, b: seq<string>)
    ensures ResolveAll(h, context, a + b) == Concat(ResolveAll(h, context, a), ResolveAll(h, context, b))
  {
    if a == [] {
      assert a + b == b;
    } else {
      assert (a + b)[0] == a[0];
      assert (a + b)[1..] == a[1..] + b;
      ResolveAllAppend(h, context, a[1..], b);
      var c := Contribution(h, context, a[0]);
      var ra := ResolveAll(h, context, a[1..]);
      var rb := ResolveAll(h, context, b);
      calc {
        ResolveAll(h, context, a + b);
        Concat(c, ResolveAll(h, context, a[1..] + b));
        Concat(c, Concat(ra, rb));
        { ConcatAssoc(c, ra, rb); }
        Concat(Concat(c, ra), rb);
      }
    }
  }

  /** Adding one more pattern at the end appends its contribution. */
  lemma ResolveAllSnoc(h: Host, context: string, patterns: seq<string>, p: string)
    ensures ResolveAll(h, context, patterns + [p])
         == Concat(ResolveAll(h, context, patterns), Contribution(h, context, p))
  {
    ResolveAllAppend(h, context, patterns, [p]);
    assert [p][1..] == [];
  }

  /**
   * A glob pattern appends its resolved matches to `files`, after all
   * earlier entries and in the glob engine's order, and the resolved
   * matches of its directory glob to the directory dependencies; it never
   * adds a file dependency.
   */
  lemma GlobPatternAppends(h: Host, context: string, patterns: seq<string>, g: string)
    requires h.hasMagic(g)
    ensures var before := ResolveAll(h, context, patterns);
            var after := ResolveAll(h, context, patterns + [g]);
            && after.files == before.files + ResolveEach(h, context, h.globSync(g, context))
            && after.directories
               == before.directories + ResolveEach(h, context, h.globSync(DirectoryGlob(h, g), context))
            && after.fileDeps == before.fileDeps
  {
    ResolveAllSnoc(h, context, patterns, g);
  }

  /** A glob that matches nothing leaves `files` as it was. */
  lemma EmptyGlobAddsNoFiles(h: Host, context: string, patterns: seq<string>, g: string)
    requires h.hasMagic(g) && h.globSync(g, context) == []
    ensures ResolveAll(h, context, patterns + [g]).files == ResolveAll(h, context, patterns).files
  {
    GlobPatternAppends(h, context, patterns, g);
    assert ResolveEach(h, context, []) == [];
  }

  /** A literal pattern appends exactly one resolved file and itself as a file dependency. */
  lemma LiteralPatternAppends(h: Host, context: string, patterns: seq<string>, p: string)
    requires !h.hasMagic(p)
    ensures var before := ResolveAll(h, context, patterns);
            var after := ResolveAll(h, context, patterns + [p]);
            && after.files == before.files + [h.resolve([Str(context), Str(p)])]
            && after.directories == before.directories
            && after.fileDeps == before.fileDeps + [p]
  {
    ResolveAllSnoc(h, context, patterns, p);
  }

  /**
   * With only literal patterns, `files` resolves each pattern in input
   * order (repeats included) and the file dependencies are the patterns
   * themselves.
   */
  lemma {:induction false} LiteralPatternsResolveInOrder(h: Host, context: string, patterns: seq<string>)
    requires forall i :: 0 <= i < |patterns| ==> !h.hasMagic(patterns[i])
    ensures ResolveAll(h, context, patterns)
         == Resolved(ResolveEach(h, context, patterns), [], patterns)
  {
    if patterns != [] {
      LiteralPatternsResolveInOrder(h, context, patterns[1..]);
      assert [h.resolve([Str(context), Str(patterns[0])])] + ResolveEach(h, context, patterns[1..])
          == ResolveEach(h, context, patterns);
      assert [patterns[0]] + patterns[1..] == patterns;
    }
  }

  /** The file dependencies are exactly the literal patterns, in order: globs add none. */
  lemma {:induction false} FileDepsAreLiterals(h: Host, context: string, patterns: seq<string>)
    ensures ResolveAll(h, context, patterns).fileDeps == Literals(h, patterns)
  {
    if patterns != [] {
      FileDepsAreLiterals(h, context, patterns[1..]);
    }
  }

  /**
   * `getFilesAndDeps(patterns, context)`: walks the patterns in order,
   * pushing a literal (`addFile`) or concatenating a glob's expansion
   * (`addByGlob`) onto the three local lists.
   */
  method GetFilesAndDeps(h: Host, patterns: seq<string>, context: string) returns (r: Resolved)
    ensures r == ResolveAll(h, context, patterns)
  {
    var files: seq<string> := [];
    var filesDeps: seq<string> := [];
    var directoryDeps: seq<string> := [];
    var i := 0;
    while i < |patterns|
      invariant 0 <= i <= |patterns|
      invariant Resolved(files, directoryDeps, filesDeps) == ResolveAll(h, context, patterns[..i])
    {
      var pattern := patterns[i];
      ResolveAllSnoc(h, context, patterns[..i], pattern);
      assert patterns[..i + 1] == patterns[..i] + [pattern];
      if h.hasMagic(pattern) {
        // addByGlob
        var foundFiles := h.globSync(pattern, context);
        files := files + ResolveEach(h, context, foundFiles);
        var globDirs := h.globSync(h.dirname(pattern) + "/", context);
        directoryDeps := directoryDeps + ResolveEach(h, context, globDirs);
      } else {
        // addFile
        filesDeps := filesDeps + [pattern];
        files := files + [h.resolve([Str(context), Str(pattern)])];
      }
      i := i + 1;
    }
    assert patterns[..i] == patterns;
    r := Resolved(files, directoryDeps, filesDeps);
  }
}
