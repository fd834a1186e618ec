# webfonts-loader, modelled in Dafny

webfonts-loader is a webpack loader. It turns a "font bundle" config into an
icon font. The loader:

- merges the bundle config over the loader options;
- expands the config's glyph patterns into SVG files and registers them
  (and the directories the globs depend on) as webpack dependencies;
- builds the option object for the `webfonts-generator` package;
- when the generator calls back, writes each generated font format into
  webpack's in-memory file-system cache and hands back the CSS.

This project models that loader (`index.js`) in three parts, plus the glue
between them.

- **Pattern resolver** (`resolver.dfy`, module `PatternResolver`).
  - `GetFilesAndDeps` is the imperative walk of `getFilesAndDeps`.
  - It is proved equal to `ResolveAll`, a right-recursive definition: the
    concatenation of each pattern's contribution.
  - A literal pattern contributes its resolved path, and itself as a file
    dependency.
  - A glob contributes its resolved matches, and the resolved matches of
    `dirname(pattern) + '/'` as directory dependencies.
- **Option normaliser** (`normalizer.dfy`, module `Normalizer`).
  - `BuildOptions` follows lines 74-153 statement by statement: `||`
    defaults, conditional writes, path resolution, and the pass-through loop
    that may overwrite an earlier default.
  - It is proved to produce `ExpectedOptions`, an independent,
    field-by-field definition of the generator options over the merged
    config.
  - `path.resolve` reads its arguments from the right and stops after the
    first absolute path. It throws a TypeError on a non-string it reads, so
    a truthy non-string template or destination is an error outcome. So is
    `scssFile === true` with `dest` unset (line 137), unless
    `fontName + '.scss'` is an absolute path, which hides `dest`; the model
    invents no default for `dest`.
- **Artifact publisher** (`publisher.dfy`, module `Publisher`).
  - `Publish` is the per-format loop of the generator callback. It builds
    the file name by first-occurrence `String.prototype.replace`, including
    its `$` patterns. It records `urls[format]`, then evicts the cache entry
    at the module path and writes the new one through the class `VirtualFs`,
    which holds the cache as a map. The write leaves an existing entry
    alone, so the eviction is what makes the new buffer visible.
  - It is proved against `Urls` and `Published`, which are folds of the
    writes in order.
- **Loader** (`loader.dfy`, module `Loader`).
  - The class `LoaderContext` holds the dependency logs and the file system.
  - `Run` ties the three parts together and decides whether code points are
    emitted.

`js.dfy` (module `Js`) models the JavaScript values the loader inspects:
truthiness, `||`, `String(v)`. `node_host.dfy` (module `NodeHost`) models the
Node services it calls. `glob.hasMagic`, `glob.sync`, `path.dirname` and
`path.resolve` are oracles passed in as the datatype `Host`. Nothing is
assumed about their results. Two assumptions are made about when they throw:

- `path.resolve` throws a TypeError when an argument it reads is not a
  string. It reads from the right, up to and including the first absolute
  path, as Node's POSIX implementation does (`ResolveValues`).
- `glob.hasMagic` throws a TypeError on a non-string pattern (`FilePatterns`).

The loader performs no check that `fontName` is set. An unset name flows
through as `undefined`, giving file names such as `undefined.woff`. The
model follows the code here and reports no configuration error.

## Model

| member | source | states |
|---|---|---|
| PatternResolver.GetFilesAndDeps | index.js:7-49 | the three lists built by walking the patterns in order equal the concatenation of every pattern's contribution (`ResolveAll`) |
| PatternResolver.ResolveEach | index.js:23-25 | each found path is resolved against the context, in order, one result per input |
| PatternResolver.ResolveAllAppend | index.js:34-40 | resolving a concatenation of pattern lists concatenates the three result lists |
| PatternResolver.LiteralPatternAppends | index.js:12-15 | a literal pattern appends exactly one resolved file and the pattern itself as a file dependency, and no directory |
| PatternResolver.GlobPatternAppends | index.js:17-31 | a glob appends its resolved matches after earlier entries, in glob order, adds the resolved matches of `dirname(glob) + '/'` as directories, and never adds a file dependency |
| PatternResolver.EmptyGlobAddsNoFiles | index.js:22-25 | a glob with no match leaves `files` unchanged |
| PatternResolver.LiteralPatternsResolveInOrder | index.js:12-15 | with literal patterns only, `files` is each pattern resolved in input order, repeats kept, and the file dependencies are the patterns themselves |
| PatternResolver.FileDepsAreLiterals | index.js:34-40 | the file dependencies are exactly the literal patterns, in order |
| NodeHost.ReadFrom | index.js:120-137 | `path.resolve` reads its arguments from the right and stops at the first absolute path: no argument to the right of the stopping point is absolute |
| NodeHost.ResolveValues | index.js:120-137 | `path.resolve` fails with a TypeError at that call iff some argument is not a string and no absolute path stands to its right; otherwise it returns the oracle's result for the exact arguments |
| NodeHost.ResolveAcceptsStrings | index.js:14 | a call whose arguments are all strings never fails |
| NodeHost.AbsoluteLastArgumentHidesEarlier | index.js:137 | an absolute last argument makes the call succeed whatever the earlier arguments are |
| NodeHost.DefaultRename | index.js:114-116 | the default glyph name never contains `/`, and a path that is exactly `.svg` gives `''` as `path.basename('.svg', '.svg')` does |
| NodeHost.DefaultRenameStripsDirAndSvg | index.js:114-116 | the default rename turns `<dir>/<name>.svg` into `<name>` |
| NodeHost.DefaultRenameKeepsOtherNames | index.js:114-116 | a name without the `.svg` extension keeps its whole last segment |
| Js.Or | index.js:88-100 | the JS or-operator is truthy iff either operand is, and is `a` when `a` is truthy, else `b` |
| Normalizer.Merge | index.js:69 | the merged config has both key sets, a bundle key overrides the caller's, and caller-only keys survive |
| Normalizer.FormatList | index.js:78-81 | a falsy `types` gives `[eot, woff, woff2, ttf, svg]`, an array is kept, and any other truthy value becomes a one-element list |
| Normalizer.UpdatedFontsPath | index.js:74-75 | after line 75 `cssFontsPath` is truthy, it is a string unless the config set a truthy non-string, and `files` holds the resolved files |
| Normalizer.UpdatedConfigKeepsKey | index.js:74-75 | storing the files and defaulting `cssFontsPath` changes no other key |
| Normalizer.UpdatedConfigKeepsPathError | index.js:74-75 | those two writes do not change which `path.resolve` call fails |
| Normalizer.UpdatedConfigKeepsReference | index.js:74-101 | those two writes change none of the generator options |
| Normalizer.ReferenceDefaults | index.js:83-101 | the or-operator defaults: `cssFontsUrl` is `'./'` and `baseSelector` is `'.icon'` when falsy; `classPrefix` keeps any present value, `''` included, and is `'icon-'` only when absent; `fontHeight` is any defined value, `0` included, else 1000; `types` and `order` are the same list |
| Normalizer.ReferencePaths | index.js:103-138 | `dest`, `htmlDest`, `cssTemplate` and `htmlTemplate` are resolved only when truthy; `cssTemplate` is absent when unset; `htmlTemplate` is present iff the key is; `cssDest` is set iff `scssFile === true`, to `resolve(context, dest, fontName + '.scss')` |
| Normalizer.AbsoluteFontNameHidesDest | index.js:136-137 | with `scssFile === true` and an absolute font name, an unset or non-string `dest` is no error, and `cssDest` is still derived |
| Normalizer.RelativeFontNameNeedsDest | index.js:136-137 | with `scssFile === true`, a relative font name and a non-string `dest` (unset included), line 137 throws |
| Normalizer.DefaultGlyphNames | index.js:111-117 | without a `rename` function in the config, the generator names the glyph of `<dir>/<name>.svg` `<name>` |
| Normalizer.TruthyScssFileWithoutCssDest | index.js:94 | a truthy `scssFile` other than `true` asks for SCSS output but leaves `cssDest` unset |
| Normalizer.ReferencePassThrough | index.js:141-153 | each glyph flag is present exactly when the config defines it, with the config's value |
| Normalizer.CopyPassThrough | index.js:141-153 | the pass-through loop writes every defined flag onto the options, replacing earlier values, and changes nothing else |
| Normalizer.PathError | index.js:119-137 | no path call throws iff every truthy template and destination is a string and, when `scssFile === true`, `dest` is a string or `fontName + '.scss'` is absolute; a failure names one of the five calls |
| Normalizer.ResolveIfTruthy | index.js:119-133 | a truthy value is resolved against the context and must be a string; a falsy one is left alone |
| Normalizer.ResolvePaths | index.js:119-138 | the path-valued fields are resolved in source order; the outcome is an error iff one of these calls reads a non-string (for line 137, a non-string `dest` with a relative font name), naming the first such call |
| Normalizer.SequentialBuildMeetsReference | index.js:83-153 | object literal, `htmlTemplate` key, rename, path resolution and pass-through loop, applied in order, yield the field-by-field reference options |
| Normalizer.BuildOptions | index.js:74-153 | the config is updated as lines 74-75 say; the options equal the reference `ExpectedOptions` of the merged config; a TypeError is raised exactly when a `path.resolve` call reads a non-string path, naming that call |
| Publisher.VirtualFs.Evict | index.js:178-185 | the cache entry at the path is gone and nothing else changes |
| Publisher.VirtualFs.Populate | index.js:187 | a path not yet cached gets the buffer with the given times; an already cached path keeps its entry; nothing else changes |
| Publisher.FindFrom | index.js:170-172 | the index found is an occurrence, with none before it, and `None` means there is none |
| Publisher.Substitution | index.js:170-172 | a replacement text without `$` is inserted as it is |
| Publisher.ReplaceFromFirst | index.js:170-172 | the scan replaces the first occurrence at or after the start index, or nothing if there is none |
| Publisher.ReplaceFirst | index.js:170-172 | pins down `Replace` (`s.replace(pat, rep)` with a string pattern): it changes only the first occurrence, and nothing when there is none |
| Publisher.TemplateStartsWithName | index.js:168-171 | `[fontname]` occurs first at the start of the template |
| Publisher.FontNameReplaced | index.js:170-171 | the first replacement yields the substituted font name followed by `.[ext]` |
| Publisher.ExtAfterName | index.js:172 | when the font name has no `[ext]`, the one replaced is the template's |
| Publisher.FilenameOfPlainName | index.js:168-172 | pins down `Filename` (lines 168-172) in the usual case: a font name without `$` or `[ext]` and a format without `$` give `fontName + '.' + format` |
| Publisher.ExtInName | index.js:172 | an `[ext]` inside the font name comes before the template's |
| Publisher.FilenameWithExtInName | index.js:168-172 | when the font name contains `[ext]`, the format replaces that first one and the template's `[ext]` stays |
| Publisher.SubstitutionCopiesPrefix | index.js:171 | a replacement prefix without `$` is copied as it is |
| Publisher.SubstitutionOfMatch | index.js:171 | a replacement text whose only `$` is one `$&` puts the matched text in its place |
| Publisher.FilenameAfterName | index.js:168-172 | when the substituted font name has no `[ext]`, the format replaces the template's `[ext]` after it |
| Publisher.FilenameExpandsMatchPattern | index.js:168-172 | a font name `a$&b` (no other `$`) gives the file name `a[fontname]b.` + format |
| Publisher.AssignKeys | index.js:176-187 | writing keys in order adds exactly those keys |
| Publisher.AssignLeavesOtherKeys | index.js:176-187 | a key no write touches keeps its value, or its absence |
| Publisher.AssignKeepsLastWrite | index.js:176-187 | a write with no later write to the same key is what the map holds |
| Publisher.AssignConsistent | index.js:176 | when writes to the same key always agree, every write is what the map holds |
| Publisher.UrlWrites | index.js:166-176 | the url writes are, per format in order, its name and its file name |
| Publisher.CacheWrites | index.js:166-187 | the cache writes are, per format in order, its module path and an entry with its buffer and the bundle's times |
| Publisher.UrlsKeys | index.js:176 | `urls` has exactly the formats' names as keys |
| Publisher.UrlsNameEveryFormat | index.js:166-176 | every format's name maps to that format's file name |
| Publisher.PublishedLeavesOtherPaths | index.js:174-187 | a cache path that is no format's module path keeps its entry, or its absence |
| Publisher.PublishedStoresLastWrite | index.js:174-187 | a format's module path holds that format's buffer with the times read once from the bundle file (line 60), unless a later format writes the same path |
| Publisher.PublishedKeys | index.js:174-187 | the cache gains exactly the formats' module paths |
| Publisher.Publishable | index.js:166-174 | the formats before the first one whose module path cannot be resolved all resolve, and that one does not |
| Publisher.StringFontsPathPublishesAll | index.js:75-174 | a string `cssFontsPath`, such as the `'./'` default of line 75, lets every format through |
| Publisher.AbsoluteFontNameHidesFontsPath | index.js:168-174 | an absolute font name gives the absolute file name `fontName + '.' + format`, so line 174 succeeds whatever `cssFontsPath` is |
| Publisher.PublishedStep | index.js:166-187 | publishing one more format adds its name and file name to `urls` and its entry at its module path to the cache |
| Publisher.PublishFormat | index.js:167-187 | one format: the file name is derived, then the entry at its module path is replaced; line 174 fails iff `cssFontsPath` is not a string and the file name is relative, and then nothing changes |
| Publisher.Publish | index.js:165-188 | formats are published in order; `urls` equals its reference fold; the cache equals the reference fold over the formats before the first failing one; the outcome fails iff some format fails |
| Loader.LoaderContext.AddDependency | index.js:72 | a file dependency is appended to the log |
| Loader.LoaderContext.AddContextDependency | index.js:73 | a directory dependency is appended to the log |
| Loader.LoaderContext.AddDependencies | index.js:72 | all file dependencies are appended, in order |
| Loader.LoaderContext.AddContextDependencies | index.js:73 | all directory dependencies are appended, in order |
| Loader.FilePatterns | index.js:71 | `files` is usable iff it is an array of strings, and then its patterns are those strings, in order |
| Loader.Found | index.js:71 | the patterns resolve iff `files` is usable |
| Loader.EmitOptions | index.js:190 | the emit options are truthy iff the bundle's or the caller's `emitCodepoints` is; the bundle's truthy value wins; otherwise they are `null` |
| Loader.EmitIffEither | index.js:190-191 | over the merged config, code points are emitted iff the raw bundle's or the caller's `emitCodepoints` is truthy, a falsy bundle value falling back to the caller's |
| Loader.Emitted | index.js:190-193 | `emitFiles` is called exactly when either `emitCodepoints` is truthy |
| Loader.TemplateDependency | index.js:157-159 | the CSS template is registered as a dependency iff it is set, and the path registered is the template's |
| Loader.TemplateDependencyIsResolvedTemplate | index.js:119-121 | the dependency registered is the configured template resolved against the context, when that is set and not empty |
| Loader.Prepare | index.js:69-159 | an unusable `files` fails before any dependency is registered; otherwise the resolver's dependencies are registered, then the options equal the reference or fail with the first bad path |
| Loader.Finish | index.js:161-196 | on a generator error nothing is published; otherwise the formats before the first failing module path are published as the publisher's reference says, and when none fails the CSS comes from `generateCss(urls)` |
| Loader.Run | index.js:57-197 | the whole invocation: the dependency logs in every case (kept after a later failure), errors and their causes, what is published, the CSS returned and whether code points are emitted |

## Left out

- Parsing the bundle file (`JSON.parse`, with `this.exec` as fallback, lines 64-68) runs arbitrary code. The parsed config is an input.
- The webpack plumbing is not modelled: `wpGetOptions`/`loaderUtils.getOptions` (lines 52-55), `this.cacheable`, and `this.async`. The callback `cb` becomes the returned `Outcome`.
- `statSync` at line 60 is not modelled. Its three times are the input `Stamps`, and a failing `statSync` is not covered.
- The font generator (`webfonts-generator`) is an input function from generator options to a `Generation`.
  - Its compilation and its own file writes (`writeFiles`, `html`, `scssFile`) are not modelled.
  - `generateCss` is an opaque function of `urls`.
- The `./emit-codepoints` module is not modelled. The model records only whether `emitFiles` is called, and with which options.
- `VirtualModuleWebpackPlugin.populateFilesystem` is modelled only for the read cache: it writes a path that is not cached yet and leaves a cached one alone. Its stat-cache write is folded into the entry's times. The test that tells a `Map` cache from a plain-object cache (lines 178-187) is not modelled; one map of path to contents and times stands in for both.
- The glob engine and `path.resolve`/`path.dirname` are oracles, so path normalisation is not modelled.
- A non-string glyph pattern is taken to make `glob.hasMagic` throw a TypeError. Dependencies are registered only after all patterns are walked, so the patterns before it have no observable effect.
- A TypeError at line 174 is thrown inside the generator callback. In index.js it escapes as an exception rather than reaching `cb`. The model reports it as a failed outcome; the formats before the failing one stay published.
- DefaultRename: `path.basename` is simplified to "the text after the last `/`", less a trailing `.svg`; a path that is exactly `.svg` gives `''`. Trailing separators and Windows paths are not modelled.
- GlyphName: a user-supplied `rename` function is not evaluated, so the model names no glyph for it.
- Numbers are integers only: no fractions, `NaN` or exponent notation in `String(n)`.
- A function-valued `fontName` or format would be called by `String.prototype.replace`; the model substitutes its source text instead (which is what `String(f)` gives in `fontName + '.scss'`).
- Objects are assumed to use the default `toString`. Property names that collide with `Object.prototype` members (`__proto__`, say) are not modelled for `urls` or the generator result.
- Urls: `urls` is a `map`, so the insertion order of the JS object is not kept. Only the opaque `generateCss` reads `urls`, so nothing in index.js depends on that order.
- `for (var i in formats)` is modelled as a walk over the array's indices. Enumerable properties added to `Array.prototype` are ignored.
