/**
 * The option normaliser (the body of the exported loader, index.js):
 * merges the loader options with the bundle config, then builds the option
 * object handed to the font generator, field by field.
 *
 * `BuildOptions` follows the source statement by statement (defaults via
 * `||`, conditional writes, the pass-through loop that may overwrite an
 * earlier default). `ExpectedOptions` is an independent, field-by-field reference
 * definition of the resulting object; `BuildOptions` is proved to meet it.
 */
module Normalizer {
  import opened Js
  import opened NodeHost

  /** `Object.assign({}, options, rawFontConfig)`: bundle keys override caller keys. */
  function Merge(options: Config, raw: Config): (m: Config)
    ensures m.Keys == options.Keys + raw.Keys
    ensures forall k :: k in raw ==> m[k] == raw[k]
    ensures forall k :: k in options && k !in raw ==> m[k] == options[k]
  {
    options + raw
  }

  const DefaultFormats: seq<Value> := [Str("eot"), Str("woff"), Str("woff2"), Str("ttf"), Str("svg")]

  /** `fontConfig.types || [...]`, wrapped in a one-element list when it is not an array. */
  function FormatList(types: Value): (r: seq<Value>)
    ensures !Truthy(types) ==> r == DefaultFormats
    ensures types.List? ==> r == types.items
    ensures Truthy(types) && !types.List? ==> r == [types]
  {
    var formats := Or(types, List(DefaultFormats));
    if formats.List? then formats.items else [formats]
  }

  /** The keys whose defined values are copied onto the generator options last. */
  const PassThroughKeys: seq<string> :=
    ["fixedWidth", "centerHorizontally", "normalize", "fontHeight", "round", "descent"]

  /** The resolved glyph files, as the JS array of strings stored back into the config. */
  function StrValues(xs: seq<string>): (r: seq<Value>)
    ensures |r| == |xs|
    ensures forall i :: 0 <= i < |xs| ==> r[i] == Str(xs[i])
  {
    seq(|xs|, i requires 0 <= i < |xs| => Str(xs[i]))
  }

  /** How glyph file names become glyph names. */
  datatype Rename =
    | StripSvg          // the loader's default, `path.basename(f, '.svg')`
    | Custom(f: Value)  // a user-supplied function, used unchanged

  /**
   * The option object passed to the font generator. An `Option` field is a
   * key the loader may leave out; the others are always present.
   */
  datatype GeneratorOptions = GeneratorOptions(
    files: seq<string>,
    fontName: Value,
    types: seq<Value>,
    order: seq<Value>,
    fontHeight: Value,
    codepoints: Value,
    baseSelector: Value,          // templateOptions.baseSelector
    classPrefix: Value,           // templateOptions.classPrefix
    scssFile: Value,
    dest: Value,
    html: Value,
    htmlDest: Value,
    writeFiles: Value,
    cssFontsUrl: Value,
    formatOptions: Value,
    htmlTemplate: Option<Value>,
    rename: Rename,
    cssTemplate: Option<Value>,
    cssDest: Option<Value>,
    fixedWidth: Option<Value>,
    centerHorizontally: Option<Value>,
    normalize: Option<Value>,
    round: Option<Value>,
    descent: Option<Value>
  )

  function RenameOf(cfg: Config): Rename
  {
    if Get(cfg, "rename").Func? then Custom(Get(cfg, "rename")) else StripSvg
  }

  /**
   * The glyph name a rename strategy gives a glyph file; `None` for a
   * user-supplied function, whose code is not part of this model.
   */
  function GlyphName(rename: Rename, file: string): Option<string>
  {
    match rename
    case StripSvg => Some(DefaultRename(file))
    case Custom(_) => None
  }

  predicate BadPath(v: Value)
  {
    Truthy(v) && !v.Str?
  }

  /** `fontConfig.fontName + '.scss'`: the SCSS file's name. */
  function ScssName(cfg: Config): string
  {
    ToJsString(Get(cfg, "fontName")) + ".scss"
  }

  /**
   * The first `path.resolve` call of the normaliser that throws: a truthy
   * non-string template or destination, or, when `scssFile` is `true`, a
   * `dest` that is not a string (an unset `dest` included) while the SCSS
   * file's name is not an absolute path that would hide it.
   */
  function PathError(cfg: Config): (r: Option<string>)
    ensures r.None? <==>
      && !BadPath(Get(cfg, "cssTemplate")) && !BadPath(Get(cfg, "htmlTemplate"))
      && !BadPath(Get(cfg, "htmlDest")) && !BadPath(Get(cfg, "dest"))
      && (Get(cfg, "scssFile") == Bool(true) ==> Get(cfg, "dest").Str? || IsAbsolute(Str(ScssName(cfg))))
    ensures r.Some? ==> r.value in ["cssTemplate", "htmlTemplate", "htmlDest", "dest", "cssDest"]
  {
    if BadPath(Get(cfg, "cssTemplate")) then Some("cssTemplate")
    else if BadPath(Get(cfg, "htmlTemplate")) then Some("htmlTemplate")
    else if BadPath(Get(cfg, "htmlDest")) then Some("htmlDest")
    else if BadPath(Get(cfg, "dest")) then Some("dest")
    else if Get(cfg, "scssFile") == Bool(true) && !Get(cfg, "dest").Str? && !IsAbsolute(Str(ScssName(cfg)))
    then Some("cssDest")
    else None
  }

  /** A truthy path-valued field, resolved against the context directory. */
  function ResolvedPath(h: Host, context: string, v: Value): Value
    requires !BadPath(v) && Truthy(v)
  {
    Str(h.resolve([Str(context), v]))
  }

  /** Defined (not `undefined`) values only. */
  function IfDefined(v: Value): Option<Value>
  {
    if v != Undefined then Some(v) else None
  }

  /** `cssDest`: "<fontName>.scss" in the (unresolved) `dest` directory, when `scssFile` is exactly `true`. */
  function CssDestOf(cfg: Config, context: string, h: Host): Option<Value>
    requires PathError(cfg).None?
  {
    if Get(cfg, "scssFile") == Bool(true) then
      Some(Str(h.resolve([Str(context), Get(cfg, "dest"), Str(ScssName(cfg))])))
    else None
  }

  /** `htmlTemplate`: present iff the key is in the config, resolved when truthy. */
  function HtmlTemplateOf(cfg: Config, context: string, h: Host): Option<Value>
    requires PathError(cfg).None?
  {
    var v := Get(cfg, "htmlTemplate");
    if "htmlTemplate" !in cfg then None
    else if Truthy(v) then Some(ResolvedPath(h, context, v))
    else Some(v)
  }

  /** `cssTemplate`: present iff truthy, and then resolved. */
  function CssTemplateOf(cfg: Config, context: string, h: Host): Option<Value>
    requires PathError(cfg).None?
  {
    var v := Get(cfg, "cssTemplate");
    if Truthy(v) then Some(ResolvedPath(h, context, v)) else None
  }

  /** A destination path: resolved when truthy, otherwise the given default. */
  function DestOf(cfg: Config, key: string, default: Value, context: string, h: Host): Value
    requires !BadPath(Get(cfg, key))
  {
    var v := Get(cfg, key);
    if Truthy(v) then ResolvedPath(h, context, v) else default
  }

  /** `classPrefix`: any value of a present key (even `''` or `undefined`), else "icon-". */
  function ClassPrefixOf(cfg: Config): Value
  {
    if "classPrefix" in cfg then cfg["classPrefix"] else Str("icon-")
  }

  /** `fontHeight`: any defined value (even a falsy one), else 1000. */
  function FontHeightOf(cfg: Config): Value
  {
    if Get(cfg, "fontHeight") != Undefined then Get(cfg, "fontHeight") else Num(1000)
  }

  /**
   * Reference definition of the generator options, one field at a time,
   * from the merged config `cfg` and the resolved glyph files.
   */
  function ExpectedOptions(cfg: Config, files: seq<string>, context: string, h: Host): GeneratorOptions
    requires PathError(cfg).None?
  {
    GeneratorOptions(
      files := files,
      fontName := Get(cfg, "fontName"),
      types := FormatList(Get(cfg, "types")),
      order := FormatList(Get(cfg, "types")),
      fontHeight := FontHeightOf(cfg),
      codepoints := Or(Get(cfg, "codepoints"), Obj(map[])),
      baseSelector := Or(Get(cfg, "baseSelector"), Str(".icon")),
      classPrefix := ClassPrefixOf(cfg),
      scssFile := Or(Get(cfg, "scssFile"), Bool(false)),
      dest := DestOf(cfg, "dest", Str(""), context, h),
      html := Or(Get(cfg, "html"), Bool(false)),
      htmlDest := DestOf(cfg, "htmlDest", Undefined, context, h),
      writeFiles := Or(Get(cfg, "writeFiles"), Bool(false)),
      cssFontsUrl := Or(Get(cfg, "cssFontsPath"), Str("./")),
      formatOptions := Or(Get(cfg, "formatOptions"), Obj(map[])),
      htmlTemplate := HtmlTemplateOf(cfg, context, h),
      rename := RenameOf(cfg),
      cssTemplate := CssTemplateOf(cfg, context, h),
      cssDest := CssDestOf(cfg, context, h),
      fixedWidth := IfDefined(Get(cfg, "fixedWidth")),
      centerHorizontally := IfDefined(Get(cfg, "centerHorizontally")),
      normalize := IfDefined(Get(cfg, "normalize")),
      round := IfDefined(Get(cfg, "round")),
      descent := IfDefined(Get(cfg, "descent"))
    )
  }

  /**
   * The `||` defaults of the generator options: a falsy value takes the
   * default, a truthy one is kept. `classPrefix` keeps any value of a
   * present key, `''` included, and `fontHeight` any defined value, `0`
   * included. `types` and `order` are the same format list.
   */
  lemma ReferenceDefaults(cfg: Config, files: seq<string>, context: string, h: Host)
    requires PathError(cfg).None?
    ensures var g := ExpectedOptions(cfg, files, context, h);
      && g.files == files
      && g.types == g.order == FormatList(Get(cfg, "types"))
      && g.cssFontsUrl == (if Truthy(Get(cfg, "cssFontsPath")) then Get(cfg, "cssFontsPath") else Str("./"))
      && g.baseSelector == (if Truthy(Get(cfg, "baseSelector")) then Get(cfg, "baseSelector") else Str(".icon"))
      && ("classPrefix" in cfg ==> g.classPrefix == cfg["classPrefix"])
      && ("classPrefix" !in cfg ==> g.classPrefix == Str("icon-"))
      && (Get(cfg, "fontHeight") != Undefined ==> g.fontHeight == Get(cfg, "fontHeight"))
      && (Get(cfg, "fontHeight") == Undefined ==> g.fontHeight == Num(1000))
      && (Truthy(g.scssFile) <==> Truthy(Get(cfg, "scssFile")))
      && (Truthy(g.html) <==> Truthy(Get(cfg, "html")))
      && (Truthy(g.writeFiles) <==> Truthy(Get(cfg, "writeFiles")))
  {
  }

  /**
   * The path-valued options: `dest`, `htmlDest`, `cssTemplate` and
   * `htmlTemplate` are resolved against the context only when truthy;
   * `cssTemplate` is absent when unset, `htmlTemplate` present iff the key
   * is, and `cssDest` present iff `scssFile` is exactly `true`.
   */
  lemma ReferencePaths(cfg: Config, files: seq<string>, context: string, h: Host)
    requires PathError(cfg).None?
    ensures var g := ExpectedOptions(cfg, files, context, h);
      && (Truthy(Get(cfg, "dest")) ==> g.dest == Str(h.resolve([Str(context), Get(cfg, "dest")])))
      && (!Truthy(Get(cfg, "dest")) ==> g.dest == Str(""))
      && (Truthy(Get(cfg, "htmlDest")) ==> g.htmlDest == Str(h.resolve([Str(context), Get(cfg, "htmlDest")])))
      && (!Truthy(Get(cfg, "htmlDest")) ==> g.htmlDest == Undefined)
      && (g.cssTemplate.Some? <==> Truthy(Get(cfg, "cssTemplate")))
      && (g.cssTemplate.Some? ==> g.cssTemplate.value == Str(h.resolve([Str(context), Get(cfg, "cssTemplate")])))
      && (g.htmlTemplate.Some? <==> "htmlTemplate" in cfg)
      && (Truthy(Get(cfg, "htmlTemplate")) ==>
            g.htmlTemplate == Some(Str(h.resolve([Str(context), Get(cfg, "htmlTemplate")]))))
      && ("htmlTemplate" in cfg && !Truthy(cfg["htmlTemplate"]) ==> g.htmlTemplate == Some(cfg["htmlTemplate"]))
      && (g.cssDest.Some? <==> Get(cfg, "scssFile") == Bool(true))
      && (g.cssDest.Some? ==>
            g.cssDest.value == Str(h.resolve([Str(context), Get(cfg, "dest"), Str(ScssName(cfg))])))
  {
  }

  /**
   * With `scssFile` exactly `true`, an absolute font name makes `dest`
   * irrelevant to line 137: `path.resolve` never reads it, so an unset or
   * non-string `dest` is no error, and `cssDest` is still derived.
   */
  lemma AbsoluteFontNameHidesDest(cfg: Config, files: seq<string>, context: string, h: Host)
    requires Get(cfg, "scssFile") == Bool(true)
    requires Get(cfg, "fontName").Str? && IsAbsolute(Get(cfg, "fontName"))
    requires !BadPath(Get(cfg, "cssTemplate")) && !BadPath(Get(cfg, "htmlTemplate"))
    requires !BadPath(Get(cfg, "htmlDest")) && !BadPath(Get(cfg, "dest"))
    ensures PathError(cfg).None?
    ensures ExpectedOptions(cfg, files, context, h).cssDest
         == Some(Str(h.resolve([Str(context), Get(cfg, "dest"), Str(Get(cfg, "fontName").s + ".scss")])))
  {
    assert ToJsString(Get(cfg, "fontName")) == Get(cfg, "fontName").s;
    assert ScssName(cfg)[0] == '/';
  }

  /**
   * With `scssFile` exactly `true` and a relative font name, line 137 reads
   * `dest`, and a `dest` that is not a string, an unset one included,
   * makes it throw.
   */
  lemma RelativeFontNameNeedsDest(cfg: Config)
    requires Get(cfg, "scssFile") == Bool(true)
    requires !Get(cfg, "dest").Str? && !IsAbsolute(Str(ScssName(cfg)))
    requires !BadPath(Get(cfg, "cssTemplate")) && !BadPath(Get(cfg, "htmlTemplate"))
    requires !BadPath(Get(cfg, "htmlDest")) && !BadPath(Get(cfg, "dest"))
    ensures PathError(cfg) == Some("cssDest")
  {
  }

  /**
   * A scalar `scssFile` other than `true` (say the string "true") makes
   * the generator write SCSS but leaves `cssDest` unset.
   */
  lemma TruthyScssFileWithoutCssDest(cfg: Config, files: seq<string>, context: string, h: Host)
    requires PathError(cfg).None?
    requires Truthy(Get(cfg, "scssFile")) && Get(cfg, "scssFile") != Bool(true)
    ensures Truthy(ExpectedOptions(cfg, files, context, h).scssFile)
    ensures ExpectedOptions(cfg, files, context, h).cssDest.None?
  {
  }

  /** The glyph-normalisation flags are present exactly when defined in the config, with its value. */
  lemma ReferencePassThrough(cfg: Config, files: seq<string>, context: string, h: Host)
    requires PathError(cfg).None?
    ensures var g := ExpectedOptions(cfg, files, context, h);
      && (g.fixedWidth.Some? <==> Get(cfg, "fixedWidth") != Undefined)
      && (g.fixedWidth.Some? ==> g.fixedWidth.value == Get(cfg, "fixedWidth"))
      && (g.centerHorizontally.Some? <==> Get(cfg, "centerHorizontally") != Undefined)
      && (g.centerHorizontally.Some? ==> g.centerHorizontally.value == Get(cfg, "centerHorizontally"))
      && (g.normalize.Some? <==> Get(cfg, "normalize") != Undefined)
      && (g.normalize.Some? ==> g.normalize.value == Get(cfg, "normalize"))
      && (g.round.Some? <==> Get(cfg, "round") != Undefined)
      && (g.round.Some? ==> g.round.value == Get(cfg, "round"))
      && (g.descent.Some? <==> Get(cfg, "descent") != Undefined)
      && (g.descent.Some? ==> g.descent.value == Get(cfg, "descent"))
  {
  }

  /**
   * Without a `rename` function in the config, the generator names the
   * glyph of "<dir>/<name>.svg" "<name>".
   */
  lemma DefaultGlyphNames(cfg: Config, files: seq<string>, context: string, h: Host, dir: string, name: string)
    requires PathError(cfg).None?
    requires !Get(cfg, "rename").Func?
    requires '/' !in name && name != ""
    ensures GlyphName(ExpectedOptions(cfg, files, context, h).rename, dir + "/" + name + ".svg") == Some(name)
  {
    DefaultRenameStripsDirAndSvg(dir, name);
  }

  /** `generatorOptions[key] = v` for one of the pass-through keys. */
  function SetPassThrough(g: GeneratorOptions, key: string, v: Value): GeneratorOptions
  {
    if key == "fixedWidth" then g.(fixedWidth := Some(v))
    else if key == "centerHorizontally" then g.(centerHorizontally := Some(v))
    else if key == "normalize" then g.(normalize := Some(v))
    else if key == "fontHeight" then g.(fontHeight := v)
    else if key == "round" then g.(round := Some(v))
    else if key == "descent" then g.(descent := Some(v))
    else g
  }

  /** `generatorOptions` with its glyph-normalisation flags copied from `cfg` where defined. */
  function WithPassThrough(g: GeneratorOptions, cfg: Config): GeneratorOptions
  {
    g.(fixedWidth := if Get(cfg, "fixedWidth") != Undefined then Some(Get(cfg, "fixedWidth")) else g.fixedWidth,
       centerHorizontally :=
         if Get(cfg, "centerHorizontally") != Undefined then Some(Get(cfg, "centerHorizontally"))
         else g.centerHorizontally,
       normalize := if Get(cfg, "normalize") != Undefined then Some(Get(cfg, "normalize")) else g.normalize,
       fontHeight := if Get(cfg, "fontHeight") != Undefined then Get(cfg, "fontHeight") else g.fontHeight,
       round := if Get(cfg, "round") != Undefined then Some(Get(cfg, "round")) else g.round,
       descent := if Get(cfg, "descent") != Undefined then Some(Get(cfg, "descent")) else g.descent)
  }

  /**
   * The `for (x in keys)` loop (lines 141-153): each pass-through key whose
   * value is not `undefined` is written onto the generator options,
   * replacing what an earlier line put there.
   */
  method CopyPassThrough(gen: GeneratorOptions, fontConfig: Config) returns (g: GeneratorOptions)
    ensures g == WithPassThrough(gen, fontConfig)
  {
    g := gen;
    var keys := PassThroughKeys;
    var x := 0;
    while x < |keys|
      invariant 0 <= x <= |keys|
      invariant g.(fixedWidth := gen.fixedWidth, centerHorizontally := gen.centerHorizontally,
                   normalize := gen.normalize, fontHeight := gen.fontHeight,
                   round := gen.round, descent := gen.descent) == gen
      invariant g.fixedWidth == if x > 0 then WithPassThrough(gen, fontConfig).fixedWidth else gen.fixedWidth
      invariant g.centerHorizontally
             == if x > 1 then WithPassThrough(gen, fontConfig).centerHorizontally else gen.centerHorizontally
      invariant g.normalize == if x > 2 then WithPassThrough(gen, fontConfig).normalize else gen.normalize
      invariant g.fontHeight == if x > 3 then WithPassThrough(gen, fontConfig).fontHeight else gen.fontHeight
      invariant g.round == if x > 4 then WithPassThrough(gen, fontConfig).round else gen.round
      invariant g.descent == if x > 5 then WithPassThrough(gen, fontConfig).descent else gen.descent
    {
      if Get(fontConfig, keys[x]) != Undefined {
        g := SetPassThrough(g, keys[x], Get(fontConfig, keys[x]));
      }
      x := x + 1;
    }
  }

  /**
   * The generator options after lines 119-138: each truthy path-valued
   * field resolved against the context, `cssDest` derived when `scssFile`
   * is exactly `true`; everything else as in `g`.
   */
  function WithPaths(g: GeneratorOptions, cfg: Config, context: string, h: Host): GeneratorOptions
    requires PathError(cfg).None?
  {
    g.(cssTemplate := if Truthy(Get(cfg, "cssTemplate")) then CssTemplateOf(cfg, context, h) else g.cssTemplate,
       htmlTemplate :=
         if Truthy(Get(cfg, "htmlTemplate")) then Some(ResolvedPath(h, context, Get(cfg, "htmlTemplate")))
         else g.htmlTemplate,
       htmlDest := DestOf(cfg, "htmlDest", g.htmlDest, context, h),
       dest := DestOf(cfg, "dest", g.dest, context, h),
       cssDest := if Get(cfg, "scssFile") == Bool(true) then CssDestOf(cfg, context, h) else g.cssDest)
  }

  /**
   * `if (v) { ... = path.resolve(context, v) }`: a truthy value is resolved
   * against the context directory, and must be a string.
   */
  method ResolveIfTruthy(h: Host, context: string, v: Value, site: string) returns (r: Result<Option<Value>>)
    ensures r.Err? <==> BadPath(v)
    ensures r.Err? ==> r.error == TypeError(site)
    ensures r.Ok? ==> r.value == if Truthy(v) then Some(ResolvedPath(h, context, v)) else None
  {
    if Truthy(v) {
      var args := [Str(context), v];
      var p := ResolveValues(h, args, site);
      assert args[0].Str? && args[1] == v;
      if p.Err? { return Err(p.error); }
      return Ok(Some(Str(p.value)));
    }
    return Ok(None);
  }

  /**
   * Lines 119-138: the path-valued fields that are set are resolved against
   * the context directory, and `cssDest` is derived when `scssFile` is
   * exactly `true`. `path.resolve` throws a TypeError on a non-string it
   * reads.
   */
  method ResolvePaths(gen: GeneratorOptions, fontConfig: Config, context: string, h: Host)
    returns (r: Result<GeneratorOptions>)
    ensures r.Err? <==> PathError(fontConfig).Some?
    ensures r.Err? ==> r.error == TypeError(PathError(fontConfig).value)
    ensures r.Ok? ==> r.value == WithPaths(gen, fontConfig, context, h)
  {
    var g := gen;
    var cssTemplate := ResolveIfTruthy(h, context, Get(fontConfig, "cssTemplate"), "cssTemplate");
    if cssTemplate.Err? { return Err(cssTemplate.error); }
    if cssTemplate.value.Some? { g := g.(cssTemplate := cssTemplate.value); }
    var htmlTemplate := ResolveIfTruthy(h, context, Get(fontConfig, "htmlTemplate"), "htmlTemplate");
    if htmlTemplate.Err? { return Err(htmlTemplate.error); }
    if htmlTemplate.value.Some? { g := g.(htmlTemplate := htmlTemplate.value); }
    var htmlDest := ResolveIfTruthy(h, context, Get(fontConfig, "htmlDest"), "htmlDest");
    if htmlDest.Err? { return Err(htmlDest.error); }
    if htmlDest.value.Some? { g := g.(htmlDest := htmlDest.value.value); }
    var dest := ResolveIfTruthy(h, context, Get(fontConfig, "dest"), "dest");
    if dest.Err? { return Err(dest.error); }
    if dest.value.Some? { g := g.(dest := dest.value.value); }
    // The companion SCSS file goes next to the CSS (only when scssFile is exactly true)
    if Get(fontConfig, "scssFile") == Bool(true) {
      var d := Get(fontConfig, "dest");
      var name := Str(ToJsString(Get(fontConfig, "fontName")) + ".scss");
      var args := [Str(context), d, name];
      var p := ResolveValues(h, args, "cssDest");
      assert args[0].Str? && args[1] == d && args[2] == name;
      if p.Err? { return Err(p.error); }
      g := g.(cssDest := Some(Str(p.value)));
    }
    r := Ok(g);
  }

  /**
   * The object literal of lines 83-101 (`||` defaults), before any
   * conditional key is added.
   */
  function ObjectLiteral(fontConfig: Config, files: seq<string>, formats: seq<Value>): GeneratorOptions
  {
    GeneratorOptions(
      files := files,
      fontName := Get(fontConfig, "fontName"),
      types := formats,
      order := formats,
      fontHeight := Or(Get(fontConfig, "fontHeight"), Num(1000)),
      codepoints := Or(Get(fontConfig, "codepoints"), Obj(map[])),
      baseSelector := Or(Get(fontConfig, "baseSelector"), Str(".icon")),
      classPrefix := if "classPrefix" in fontConfig then fontConfig["classPrefix"] else Str("icon-"),
      scssFile := Or(Get(fontConfig, "scssFile"), Bool(false)),
      dest := Or(Get(fontConfig, "dest"), Str("")),
      html := Or(Get(fontConfig, "html"), Bool(false)),
      htmlDest := Or(Get(fontConfig, "htmlDest"), Undefined),
      writeFiles := Or(Get(fontConfig, "writeFiles"), Bool(false)),
      cssFontsUrl := Or(Get(fontConfig, "cssFontsPath"), Str("./")),
      formatOptions := Or(Get(fontConfig, "formatOptions"), Obj(map[])),
      htmlTemplate := None,
      rename := StripSvg,
      cssTemplate := None,
      cssDest := None,
      fixedWidth := None,
      centerHorizontally := None,
      normalize := None,
      round := None,
      descent := None
    )
  }

  /** The config after lines 74-75: resolved files stored back, `cssFontsPath` defaulted. */
  function UpdatedConfig(merged: Config, files: seq<string>): Config
  {
    merged["files" := List(StrValues(files))]["cssFontsPath" := Or(Get(merged, "cssFontsPath"), Str("./"))]
  }

  /**
   * After line 75 `cssFontsPath` is truthy, and it is a string unless the
   * config set it to a truthy non-string.
   */
  lemma UpdatedFontsPath(merged: Config, files: seq<string>)
    ensures Truthy(Get(UpdatedConfig(merged, files), "cssFontsPath"))
    ensures Get(UpdatedConfig(merged, files), "cssFontsPath").Str? <==> !BadPath(Get(merged, "cssFontsPath"))
    ensures Get(UpdatedConfig(merged, files), "files") == List(StrValues(files))
  {
  }

  /** Storing the files and defaulting `cssFontsPath` leaves every other key as it was. */
  lemma UpdatedConfigKeepsKey(merged: Config, files: seq<string>, k: string)
    requires k != "files" && k != "cssFontsPath"
    ensures Get(UpdatedConfig(merged, files), k) == Get(merged, k)
    ensures k in UpdatedConfig(merged, files) <==> k in merged
  {
  }

  /** Storing the files and defaulting `cssFontsPath` does not change which path is rejected. */
  lemma UpdatedConfigKeepsPathError(merged: Config, files: seq<string>)
    ensures PathError(UpdatedConfig(merged, files)) == PathError(merged)
  {
    UpdatedConfigKeepsKey(merged, files, "cssTemplate");
    UpdatedConfigKeepsKey(merged, files, "htmlTemplate");
    UpdatedConfigKeepsKey(merged, files, "htmlDest");
    UpdatedConfigKeepsKey(merged, files, "dest");
    UpdatedConfigKeepsKey(merged, files, "scssFile");
    UpdatedConfigKeepsKey(merged, files, "fontName");
  }

  /**
   * Storing the files and defaulting `cssFontsPath` in the config changes
   * none of the generator options.
   */
  lemma UpdatedConfigKeepsReference(merged: Config, files: seq<string>, context: string, h: Host)
    requires PathError(merged).None?
    ensures PathError(UpdatedConfig(merged, files)).None?
    ensures ExpectedOptions(UpdatedConfig(merged, files), files, context, h) == ExpectedOptions(merged, files, context, h)
  {
    UpdatedConfigKeepsPathError(merged, files);
    UpdatedConfigKeepsKey(merged, files, "fontName");
    UpdatedConfigKeepsKey(merged, files, "types");
    UpdatedConfigKeepsKey(merged, files, "fontHeight");
    UpdatedConfigKeepsKey(merged, files, "codepoints");
    UpdatedConfigKeepsKey(merged, files, "baseSelector");
    UpdatedConfigKeepsKey(merged, files, "classPrefix");
    UpdatedConfigKeepsKey(merged, files, "scssFile");
    UpdatedConfigKeepsKey(merged, files, "dest");
    UpdatedConfigKeepsKey(merged, files, "html");
    UpdatedConfigKeepsKey(merged, files, "htmlDest");
    UpdatedConfigKeepsKey(merged, files, "writeFiles");
    UpdatedConfigKeepsKey(merged, files, "formatOptions");
    UpdatedConfigKeepsKey(merged, files, "htmlTemplate");
    UpdatedConfigKeepsKey(merged, files, "rename");
    UpdatedConfigKeepsKey(merged, files, "cssTemplate");
    UpdatedConfigKeepsKey(merged, files, "fixedWidth");
    UpdatedConfigKeepsKey(merged, files, "centerHorizontally");
    UpdatedConfigKeepsKey(merged, files, "normalize");
    UpdatedConfigKeepsKey(merged, files, "round");
    UpdatedConfigKeepsKey(merged, files, "descent");
  }

  /**
   * The statement-by-statement construction (object literal, the
   * `htmlTemplate` key, the rename strategy, path resolution, then the
   * pass-through loop) yields exactly the field-by-field reference
   * definition. This is where the fontHeight override, the `htmlTemplate`
   * overwrite and the `dest`/`htmlDest` defaults are reconciled.
   */
  lemma SequentialBuildMeetsReference(fc: Config, files: seq<string>, context: string, h: Host, g0: GeneratorOptions)
    requires PathError(fc).None?
    requires g0 == ObjectLiteral(fc, files, FormatList(Get(fc, "types")))
                     .(htmlTemplate := if "htmlTemplate" in fc then Some(fc["htmlTemplate"]) else None,
                       rename := RenameOf(fc))
    ensures WithPassThrough(WithPaths(g0, fc, context, h), fc) == ExpectedOptions(fc, files, context, h)
  {
    var g2 := WithPassThrough(WithPaths(g0, fc, context, h), fc);
    var e := ExpectedOptions(fc, files, context, h);
    assert g2.fontHeight == e.fontHeight;
    assert g2.htmlTemplate == e.htmlTemplate;
  }

  /**
   * Lines 74-153 of the loader: records the resolved files and the
   * defaulted `cssFontsPath` in the config, then builds the generator
   * options. Fails with a TypeError where `path.resolve` reads a
   * non-string.
   */
  method BuildOptions(merged: Config, files: seq<string>, context: string, h: Host)
    returns (fontConfig: Config, r: Result<GeneratorOptions>)
    ensures fontConfig == UpdatedConfig(merged, files)
    ensures r.Err? <==> PathError(merged).Some?
    ensures r.Err? ==> r.error == TypeError(PathError(merged).value)
    ensures r.Ok? ==> r.value == ExpectedOptions(merged, files, context, h)
  {
    fontConfig := merged["files" := List(StrValues(files))];
    fontConfig := fontConfig["cssFontsPath" := Or(Get(fontConfig, "cssFontsPath"), Str("./"))];

    var formats := Or(Get(fontConfig, "types"), List(DefaultFormats));
    if !formats.List? {
      formats := List([formats]);
    }

    var gen := ObjectLiteral(fontConfig, files, formats.items);

    // Add the key only if it is in the config
    if "htmlTemplate" in fontConfig {
      gen := gen.(htmlTemplate := Some(fontConfig["htmlTemplate"]));
    }

    if Get(fontConfig, "rename").Func? {
      gen := gen.(rename := Custom(Get(fontConfig, "rename")));
    } else {
      gen := gen.(rename := StripSvg);
    }

    assert formats.items == FormatList(Get(fontConfig, "types"));
    assert gen == ObjectLiteral(fontConfig, files, FormatList(Get(fontConfig, "types")))
                    .(htmlTemplate := if "htmlTemplate" in fontConfig then Some(fontConfig["htmlTemplate"]) else None,
                      rename := RenameOf(fontConfig));
    assert fontConfig == UpdatedConfig(merged, files);
    ghost var literal := gen;
    UpdatedConfigKeepsPathError(merged, files);
    if PathError(merged).None? {
      SequentialBuildMeetsReference(fontConfig, files, context, h, literal);
      UpdatedConfigKeepsReference(merged, files, context, h);
    }
    var resolved := ResolvePaths(gen, fontConfig, context, h);
    if resolved.Err? {
      return fontConfig, Err(resolved.error);
    }
    gen := CopyPassThrough(resolved.value, fontConfig);
    r := Ok(gen);
  }
}
