/**
 * The Node.js and npm services the loader calls. `glob.hasMagic`,
 * `glob.sync`, `path.dirname` and `path.resolve` are oracles: the model
 * takes them as functions and assumes nothing about their results. Which
 * arguments make `path.resolve` throw is modelled; `path.basename`, which
 * the default glyph-rename strategy depends on, is given a simplified
 * definition.
 */
module NodeHost {
  import opened Js

  /** The library functions the loader relies on, passed in. */
  datatype Host = Host(
    hasMagic: string -> bool,                 // glob.hasMagic(pattern)
    globSync: (string, string) -> seq<string>,// glob.sync(pattern, {cwd}), in the engine's order
    dirname: string -> string,                // path.dirname(p)
    resolve: seq<Value> -> string             // path.resolve(...args), for the calls that return
  )

  /** Why a loader invocation fails. */
  datatype LoaderError =
    | TypeError(site: string)        // a Node library call given an argument of the wrong type
    | GeneratorError(message: string)// the error passed to the generator's callback

  datatype Result<+T> = Ok(value: T) | Err(error: LoaderError)

  function Strings(args: seq<Value>): (r: seq<string>)
    requires forall i :: 0 <= i < |args| ==> args[i].Str?
    ensures |r| == |args|
    ensures forall i :: 0 <= i < |args| ==> r[i] == args[i].s
  {
    if args == [] then [] else [args[0].s] + Strings(args[1..])
  }

  /** A string that `path.resolve` treats as an absolute path: it starts with '/'. */
  predicate IsAbsolute(v: Value)
  {
    v.Str? && |v.s| > 0 && v.s[0] == '/'
  }

  /**
   * Where `path.resolve` stops reading its arguments. It scans them from
   * the right and stops after the first absolute path; with none, it reads
   * them all.
   */
  function ReadFrom(args: seq<Value>): (k: nat)
    ensures k == 0 || (k < |args| && IsAbsolute(args[k]))
    ensures forall i :: k < i < |args| ==> !IsAbsolute(args[i])
  {
    if args == [] then 0
    else if IsAbsolute(args[|args| - 1]) then |args| - 1
    else
      var n := |args| - 1;
      assert forall i :: 0 <= i < n ==> args[..n][i] == args[i];
      ReadFrom(args[..n])
  }

  /** `path.resolve(...args)` throws: one of the arguments it reads is not a string. */
  predicate Rejects(args: seq<Value>)
  {
    exists i :: ReadFrom(args) <= i < |args| && !args[i].Str?
  }

  /**
   * `path.resolve(...args)`: a TypeError when an argument it reads is not a
   * string, that is, when a non-string has no absolute path to its right;
   * `site` names the call in the loader. Arguments to the left of the
   * right-most absolute path are never looked at.
   */
  function ResolveValues(h: Host, args: seq<Value>, site: string): (r: Result<string>)
    ensures r.Err? <==> exists j :: 0 <= j < |args| && !args[j].Str? &&
                                   forall i :: j < i < |args| ==> !IsAbsolute(args[i])
    ensures r.Err? ==> r.error == TypeError(site)
    ensures r.Ok? ==> r.value == h.resolve(args)
  {
    if Rejects(args) then Err(TypeError(site)) else Ok(h.resolve(args))
  }

  /** Any list of strings is accepted. */
  lemma ResolveAcceptsStrings(h: Host, args: seq<Value>, site: string)
    requires forall i :: 0 <= i < |args| ==> args[i].Str?
    ensures ResolveValues(h, args, site) == Ok(h.resolve(args))
  {
  }

  /**
   * An absolute path as the last argument hides everything before it: the
   * call succeeds whatever the earlier arguments are.
   */
  lemma AbsoluteLastArgumentHidesEarlier(h: Host, args: seq<Value>, last: Value, site: string)
    requires IsAbsolute(last)
    ensures ResolveValues(h, args + [last], site) == Ok(h.resolve(args + [last]))
  {
    var a := args + [last];
    assert a[|a| - 1] == last;
  }

  /** The last path segment: everything after the last '/'. */
  function Basename(p: string): (r: string)
    ensures '/' !in r
    ensures |r| <= |p| && p[|p| - |r|..] == r
    ensures |r| < |p| ==> p[|p| - |r| - 1] == '/'
  {
    if p == [] || p[|p| - 1] == '/' then []
    else Basename(p[..|p| - 1]) + [p[|p| - 1]]
  }

  predicate EndsWithSvg(s: string)
  {
    |s| >= 4 && s[|s| - 4..] == ".svg"
  }

  /**
   * The loader's default glyph-rename strategy, `path.basename(f, '.svg')`:
   * the last path segment, less a trailing ".svg" unless that is all of it;
   * a path that is exactly ".svg" gives the empty string.
   */
  function DefaultRename(f: string): (r: string)
    ensures '/' !in r
    ensures f == ".svg" ==> r == ""
  {
    var b := Basename(f);
    if f == ".svg" then ""
    else if EndsWithSvg(b) && |b| > 4 then b[..|b| - 4] else b
  }

  lemma BasenameAfterSlash(dir: string, name: string)
    requires '/' !in name
    ensures Basename(dir + "/" + name) == name
  {
    var p := dir + "/" + name;
    assert p[|p| - |name|..] == name;
    assert p[|p| - |name| - 1] == '/';
  }

  /** The default strategy turns "<dir>/<name>.svg" into "<name>". */
  lemma DefaultRenameStripsDirAndSvg(dir: string, name: string)
    requires '/' !in name && name != ""
    ensures DefaultRename(dir + "/" + name + ".svg") == name
  {
    assert dir + "/" + name + ".svg" == dir + "/" + (name + ".svg");
    BasenameAfterSlash(dir, name + ".svg");
    assert (name + ".svg")[..|name|] == name;
  }

  /** A file name without the ".svg" extension keeps its whole last segment. */
  lemma DefaultRenameKeepsOtherNames(dir: string, name: string)
    requires '/' !in name && !EndsWithSvg(name)
    ensures DefaultRename(dir + "/" + name) == name
  {
    BasenameAfterSlash(dir, name);
  }
}
