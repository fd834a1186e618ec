/**
 * The exported webpack loader of index.js, end to end: merges the options,
 * resolves the glyph patterns and registers them as dependencies, builds
 * the generator options, hands them to the font generator, publishes its
 * output and decides whether the code points are emitted.
 */
module Loader {
  import opened Js
  import opened NodeHost
  import opened PatternResolver
  import opened Normalizer
  import opened Publisher

  /** The part of webpack's loader context the loader touches. */
  class LoaderContext {
    const context: string           // `this.context`: the bundle's directory
    const fs: VirtualFs             // `this.fs`, as far as its read cache goes
    var fileDependencies: seq<string>    // `this.addDependency` calls, in order
    var contextDependencies: seq<string> // `this.addContextDependency` calls, in order

    constructor (context: string, fs: VirtualFs)
      ensures this.context == context && this.fs == fs
      ensures fileDependencies == [] && contextDependencies == []
    {
      this.context := context;
      this.fs := fs;
      fileDependencies := [];
      contextDependencies := [];
    }

    /** `this.addDependency(file)` */
    method AddDependency(file: string)
      modifies this
      ensures fileDependencies == old(fileDependencies) + [file]
      ensures contextDependencies == old(contextDependencies)
    {
      fileDependencies := fileDependencies + [file];
    }

    /** `this.addContextDependency(dir)` */
    method AddContextDependency(dir: string)
      modifies this
      ensures contextDependencies == old(contextDependencies) + [dir]
      ensures fileDependencies == old(fileDependencies)
    {
      contextDependencies := contextDependencies + [dir];
    }

    /** Line 72: `files.forEach(this.addDependency.bind(this))` */
    method AddDependencies(files: seq<string>)
      modifies this
      ensures fileDependencies == old(fileDependencies) + files
      ensures contextDependencies == old(contextDependencies)
    {
      var i := 0;
      while i < |files|
        invariant 0 <= i <= |files|
        invariant fileDependencies == old(fileDependencies) + files[..i]
        invariant contextDependencies == old(contextDependencies)
      {
        AddDependency(files[i]);
        assert files[..i + 1] == files[..i] + [files[i]];
        i := i + 1;
      }
      assert files[..i] == files;
    }

    /** Line 73: `directories.forEach(this.addContextDependency.bind(this))` */
    method AddContextDependencies(dirs: seq<string>)
      modifies this
      ensures contextDependencies == old(contextDependencies) + dirs
      ensures fileDependencies == old(fileDependencies)
    {
      var i := 0;
      while i < |dirs|
        invariant 0 <= i <= |dirs|
        invariant contextDependencies == old(contextDependencies) + dirs[..i]
        invariant fileDependencies == old(fileDependencies)
      {
        AddContextDependency(dirs[i]);
        assert dirs[..i + 1] == dirs[..i] + [dirs[i]];
        i := i + 1;
      }
      assert dirs[..i] == dirs;
    }
  }

  /**
   * The config's `files`, as `getFilesAndDeps` needs them: an array of
   * pattern strings. Anything else makes `forEach` or `glob.hasMagic`
   * throw a TypeError.
   */
  function FilePatterns(files: Value): (r: Option<seq<string>>)
    ensures r.Some? <==> files.List? && forall i :: 0 <= i < |files.items| ==> files.items[i].Str?
    ensures r.Some? ==> |r.value| == |files.items| && forall i :: 0 <= i < |files.items| ==> r.value[i] == files.items[i].s
  {
    if files.List? && forall i :: 0 <= i < |files.items| ==> files.items[i].Str? then Some(Strings(files.items))
    else None
  }

  /** What the font generator calls back with. */
  datatype Generation =
    | GenerationFailed(message: string)
    | Generated(buffers: map<string, Bytes>, generateCss: map<string, string> -> string)

  /** How one loader invocation ends. */
  datatype Outcome =
    | Failed(error: LoaderError)
    | Done(css: string, emitted: Option<Value>)  // `cb(null, css)`; the options `emitFiles` got, if it was called

  /**
   * Line 190: `fontConfig.emitCodepoints || options.emitCodepoints || null`.
   * Code points are emitted when this is truthy.
   */
  function EmitOptions(fontConfig: Config, options: Config): (r: Value)
    ensures Truthy(r) <==> Truthy(Get(fontConfig, "emitCodepoints")) || Truthy(Get(options, "emitCodepoints"))
    ensures Truthy(Get(fontConfig, "emitCodepoints")) ==> r == Get(fontConfig, "emitCodepoints")
    ensures !Truthy(Get(fontConfig, "emitCodepoints")) && Truthy(Get(options, "emitCodepoints"))
            ==> r == Get(options, "emitCodepoints")
    ensures !Truthy(r) ==> r == Null
  {
    Or(Or(Get(fontConfig, "emitCodepoints"), Get(options, "emitCodepoints")), Null)
  }

  /**
   * Code points are emitted iff the bundle's or the caller's
   * `emitCodepoints` is truthy; a truthy bundle value wins, and a falsy
   * one falls back to the caller's even though the bundle key overrides
   * the caller's in the merged config.
   */
  lemma EmitIffEither(options: Config, raw: Config, files: seq<string>)
    ensures var r := EmitOptions(UpdatedConfig(Merge(options, raw), files), options);
            && (Truthy(r) <==> Truthy(Get(raw, "emitCodepoints")) || Truthy(Get(options, "emitCodepoints")))
            && (Truthy(Get(raw, "emitCodepoints")) ==> r == Get(raw, "emitCodepoints"))
  {
    UpdatedConfigKeepsKey(Merge(options, raw), files, "emitCodepoints");
  }

  /** Lines 190-193: the options `emitFiles` is called with, when it is called at all. */
  function Emitted(fontConfig: Config, options: Config): (r: Option<Value>)
    ensures r.Some? <==> Truthy(Get(fontConfig, "emitCodepoints")) || Truthy(Get(options, "emitCodepoints"))
  {
    var emit := EmitOptions(fontConfig, options);
    if Truthy(emit) then Some(emit) else None
  }

  /** The publish job of a successful generation. */
  function JobOf(h: Host, context: string, fontConfig: Config, g: GeneratorOptions, buffers: map<string, Bytes>, stamps: Stamps): Job
  {
    Job(h, context, Get(fontConfig, "cssFontsPath"), g.fontName, buffers, stamps)
  }

  /** Lines 157-159: the resolved CSS template, when there is one, is a dependency too. */
  function TemplateDependency(g: GeneratorOptions): (r: seq<string>)
    ensures |r| <= 1
    ensures r != [] <==> g.cssTemplate.Some? && Truthy(g.cssTemplate.value)
    ensures r != [] && g.cssTemplate.value.Str? ==> r == [g.cssTemplate.value.s]
  {
    if g.cssTemplate.Some? && Truthy(g.cssTemplate.value) then [ToJsString(g.cssTemplate.value)] else []
  }

  /**
   * The dependency registered for the generator options is the CSS
   * template path resolved against the context, when the config sets a
   * template and the resolved path is not empty.
   */
  lemma TemplateDependencyIsResolvedTemplate(cfg: Config, files: seq<string>, context: string, h: Host)
    requires PathError(cfg).None?
    ensures var t := Get(cfg, "cssTemplate");
            var resolved := h.resolve([Str(context), t]);
            TemplateDependency(ExpectedOptions(cfg, files, context, h))
              == if Truthy(t) && resolved != "" then [resolved] else []
  {
    ReferencePaths(cfg, files, context, h);
  }

  /**
   * Lines 161-196: the generator's callback. On an error nothing is
   * published; otherwise every format is published, then the code points
   * are emitted when asked for, and the CSS is produced from `urls`.
   */
  method Finish(ctx: LoaderContext, options: Config, fontConfig: Config, g: GeneratorOptions,
                generation: Generation, stamps: Stamps, h: Host) returns (out: Outcome)
    modifies ctx.fs
    ensures generation.GenerationFailed? ==>
      out == Failed(GeneratorError(generation.message)) && ctx.fs.data == old(ctx.fs.data)
    ensures generation.Generated? ==>
      var job := JobOf(h, ctx.context, fontConfig, g, generation.buffers, stamps);
      var n := Publishable(job, g.types);
      && ctx.fs.data == Published(old(ctx.fs.data), job, g.types[..n])
      && (n < |g.types| ==> out == Failed(TypeError("modulePath")))
      && (n == |g.types| ==> out == Done(generation.generateCss(Urls(job, g.types)), Emitted(fontConfig, options)))
  {
    if generation.GenerationFailed? {
      return Failed(GeneratorError(generation.message));
    }
    var job := JobOf(h, ctx.context, fontConfig, g, generation.buffers, stamps);
    var urls := Publish(ctx.fs, job, g.types);
    if urls.Err? {
      return Failed(urls.error);
    }
    var emitOptions := EmitOptions(fontConfig, options);
    var emitted := if Truthy(emitOptions) then Some(emitOptions) else None;
    out := Done(generation.generateCss(urls.value), emitted);
  }

  /** The patterns of the merged config, resolved; `None` when `files` is not an array of strings. */
  function Found(merged: Config, context: string, h: Host): (r: Option<Resolved>)
    ensures r.Some? <==> FilePatterns(Get(merged, "files")).Some?
  {
    match FilePatterns(Get(merged, "files"))
    case None => None
    case Some(patterns) => Some(ResolveAll(h, context, patterns))
  }

  /**
   * Lines 69-159: merges the options, registers the glyph files and the
   * directories the globs depend on, builds the generator options and
   * registers the CSS template.
   */
  method Prepare(ctx: LoaderContext, options: Config, raw: Config, h: Host)
    returns (fontConfig: Config, r: Result<GeneratorOptions>)
    modifies ctx
    ensures var merged := Merge(options, raw);
      Found(merged, ctx.context, h).None? ==>
        && r == Err(TypeError("files"))
        && ctx.fileDependencies == old(ctx.fileDependencies)
        && ctx.contextDependencies == old(ctx.contextDependencies)
    ensures var merged := Merge(options, raw);
      Found(merged, ctx.context, h).Some? ==>
        var found := Found(merged, ctx.context, h).value;
        && fontConfig == UpdatedConfig(merged, found.files)
        && ctx.contextDependencies == old(ctx.contextDependencies) + found.directories
        && (r.Err? <==> PathError(merged).Some?)
        && (r.Err? ==> r.error == TypeError(PathError(merged).value)
                       && ctx.fileDependencies == old(ctx.fileDependencies) + found.fileDeps)
        && (r.Ok? ==> r.value == ExpectedOptions(merged, found.files, ctx.context, h)
                      && ctx.fileDependencies == old(ctx.fileDependencies) + found.fileDeps + TemplateDependency(r.value))
  {
    var merged := Merge(options, raw);
    var patterns := FilePatterns(Get(merged, "files"));
    if patterns.None? {
      return map[], Err(TypeError("files"));
    }
    var found := GetFilesAndDeps(h, patterns.value, ctx.context);
    ctx.AddDependencies(found.fileDeps);
    ctx.AddContextDependencies(found.directories);

    fontConfig, r := BuildOptions(merged, found.files, ctx.context, h);
    if r.Err? {
      return;
    }
    var g := r.value;
    if g.cssTemplate.Some? && Truthy(g.cssTemplate.value) {
      ctx.AddDependency(ToJsString(g.cssTemplate.value));
    }
  }

  /**
   * The loader: `options` are the webpack loader options, `raw` the parsed
   * bundle config, `stamps` the bundle file's times, `generate` the font
   * generator. Dependencies are registered before the generator runs, so a
   * failure of the generator or of the publishing keeps them; when line 174
   * throws, the formats before the failing one stay published.
   */
  method Run(ctx: LoaderContext, options: Config, raw: Config, stamps: Stamps, h: Host,
             generate: GeneratorOptions -> Generation) returns (out: Outcome)
    modifies ctx, ctx.fs
    ensures var merged := Merge(options, raw);
      Found(merged, ctx.context, h).None? ==>
        && out == Failed(TypeError("files"))
        && ctx.fileDependencies == old(ctx.fileDependencies)
        && ctx.contextDependencies == old(ctx.contextDependencies)
        && ctx.fs.data == old(ctx.fs.data)
    ensures var merged := Merge(options, raw);
      Found(merged, ctx.context, h).Some? ==>
        var found := Found(merged, ctx.context, h).value;
        && ctx.contextDependencies == old(ctx.contextDependencies) + found.directories
        && (PathError(merged).Some? ==> ctx.fileDependencies == old(ctx.fileDependencies) + found.fileDeps)
        && (PathError(merged).None? ==>
              ctx.fileDependencies == old(ctx.fileDependencies) + found.fileDeps
                                      + TemplateDependency(ExpectedOptions(merged, found.files, ctx.context, h)))
    ensures var merged := Merge(options, raw);
      Found(merged, ctx.context, h).Some? && PathError(merged).Some? ==>
        out == Failed(TypeError(PathError(merged).value)) && ctx.fs.data == old(ctx.fs.data)
    ensures var merged := Merge(options, raw);
      Found(merged, ctx.context, h).Some? && PathError(merged).None? ==>
        var files := Found(merged, ctx.context, h).value.files;
        var fontConfig := UpdatedConfig(merged, files);
        var g := ExpectedOptions(merged, files, ctx.context, h);
        && (generate(g).GenerationFailed? ==>
              out == Failed(GeneratorError(generate(g).message)) && ctx.fs.data == old(ctx.fs.data))
        && (generate(g).Generated? ==>
              var job := JobOf(h, ctx.context, fontConfig, g, generate(g).buffers, stamps);
              var n := Publishable(job, g.types);
              && ctx.fs.data == Published(old(ctx.fs.data), job, g.types[..n])
              && (n < |g.types| ==> out == Failed(TypeError("modulePath")))
              && (n == |g.types| ==> out == Done(generate(g).generateCss(Urls(job, g.types)), Emitted(fontConfig, options))))
  {
    var fontConfig, built := Prepare(ctx, options, raw, h);
    if built.Err? {
      return Failed(built.error);
    }
    out := Finish(ctx, options, fontConfig, built.value, generate(built.value), stamps, h);
  }
}
