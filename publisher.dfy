/**
 * The artifact publisher (the generator callback of index.js): for each
 * format, in order, it derives the font file name, records it in `urls`,
 * and replaces the webpack file-system cache entry at the file's module
 * path with the generated buffer.
 */
module Publisher {
  import opened Js
  import opened NodeHost

  type Bytes = seq<bv8>

  /** The access, modification and change times read once from the bundle file. */
  datatype Stamps = Stamps(atime: int, mtime: int, ctime: int)

  /** A cached file: its contents (`undefined` when the generator produced none) and its times. */
  datatype Entry = Entry(contents: Option<Bytes>, stamps: Stamps)

  /**
   * The read cache of webpack's input file system. Both historical shapes
   * (a `Map` and a plain object) are one map from path to entry here.
   */
  class VirtualFs {
    var data: map<string, Entry>

    constructor (initial: map<string, Entry>)
      ensures data == initial
    {
      data := initial;
    }

    /** Lines 178-185: drop the cached entry at `path`, if any. */
    method Evict(path: string)
      modifies this
      ensures data == old(data) - {path}
    {
      data := data - {path};
    }

    /**
     * `VirtualModuleWebpackPlugin.populateFilesystem`: store `contents` at
     * `path` with the given times, unless the cache already holds an entry
     * there, which is then left as it is.
     */
    method Populate(path: string, contents: Option<Bytes>, stamps: Stamps)
      modifies this
      ensures path in old(data) ==> data == old(data)
      ensures path !in old(data) ==> data == old(data)[path := Entry(contents, stamps)]
    {
      if path !in data {
        data := data[path := Entry(contents, stamps)];
      }
    }
  }

  /** `pat` occurs in `s` at index `k`. */
  predicate Occurs(s: string, pat: string, k: nat)
  {
    k + |pat| <= |s| && s[k..k + |pat|] == pat
  }

  /** The first occurrence of `pat` in `s` at or after index `i`. */
  function FindFrom(s: string, pat: string, i: nat): (r: Option<nat>)
    requires i <= |s|
    ensures r.Some? ==> i <= r.value && Occurs(s, pat, r.value)
    ensures r.Some? ==> forall k :: i <= k < r.value ==> !Occurs(s, pat, k)
    ensures r.None? ==> forall k :: i <= k ==> !Occurs(s, pat, k)
    decreases |s| - i
  {
    if i + |pat| > |s| then None
    else if s[i..i + |pat|] == pat then Some(i)
    else if i == |s| then None
    else FindFrom(s, pat, i + 1)
  }

  /** `s.indexOf(pat)`. */
  function IndexOf(s: string, pat: string): Option<nat>
  {
    FindFrom(s, pat, 0)
  }

  /**
   * The replacement text of `String.prototype.replace` with a string
   * pattern: `$$` is a dollar sign, `$&` the matched text, `` $` `` the text
   * before the match, `$'` the text after it; any other `$` is kept.
   */
  function Substitution(rep: string, matched: string, before: string, after: string): (r: string)
    ensures '$' !in rep ==> r == rep
    decreases |rep|
  {
    if rep == [] then []
    else if rep[0] == '$' && |rep| >= 2 && IsPattern(rep[1]) then
      Expansion(rep[1], matched, before, after) + Substitution(rep[2..], matched, before, after)
    else [rep[0]] + Substitution(rep[1..], matched, before, after)
  }

  /** The characters that may follow "$" in a replacement pattern of a string search. */
  predicate IsPattern(c: char)
  {
    c == '$' || c == '&' || c == '`' || c == '\''
  }

  /** What "$" followed by `c` stands for. */
  function Expansion(c: char, matched: string, before: string, after: string): string
    requires IsPattern(c)
  {
    if c == '$' then "$"
    else if c == '&' then matched
    else if c == '`' then before
    else after
  }

  /** A character other than "$" is copied as it is. */
  lemma SubstitutionCopies(c: char, rest: string, matched: string, before: string, after: string)
    requires c != '$'
    ensures Substitution([c] + rest, matched, before, after) == [c] + Substitution(rest, matched, before, after)
  {
    assert ([c] + rest)[0] == c && ([c] + rest)[1..] == rest;
  }

  /** "$&" stands for the matched text. */
  lemma SubstitutionExpandsMatch(rest: string, matched: string, before: string, after: string)
    ensures Substitution("$&" + rest, matched, before, after) == matched + Substitution(rest, matched, before, after)
  {
    var rep := "$&" + rest;
    assert rep[0] == '$' && rep[1] == '&' && rep[2..] == rest;
  }

  lemma ConsAppend(c: char, x: string, y: string)
    ensures [c] + (x + y) == ([c] + x) + y
  {
  }

  /** A prefix without "$" is copied as it is. */
  lemma {:induction false} SubstitutionCopiesPrefix(a: string, rest: string, matched: string, before: string, after: string)
    requires forall i :: 0 <= i < |a| ==> a[i] != '$'
    ensures Substitution(a + rest, matched, before, after) == a + Substitution(rest, matched, before, after)
    decreases |a|
  {
    if a == [] {
      assert a + rest == rest;
    } else {
      var c, tail := a[0], a[1..] + rest;
      var sub := Substitution(rest, matched, before, after);
      assert a + rest == [c] + tail;
      SubstitutionCopies(c, tail, matched, before, after);
      SubstitutionCopiesPrefix(a[1..], rest, matched, before, after);
      calc {
        Substitution(a + rest, matched, before, after);
        Substitution([c] + tail, matched, before, after);
        [c] + Substitution(tail, matched, before, after);
        [c] + (a[1..] + sub);
        { ConsAppend(c, a[1..], sub); assert [c] + a[1..] == a; }
        a + sub;
      }
    }
  }

  /** A replacement text whose only "$" is one "$&" puts the matched text in its place. */
  lemma SubstitutionOfMatch(a: string, b: string, matched: string, before: string, after: string)
    requires '$' !in a && '$' !in b
    ensures Substitution(a + "$&" + b, matched, before, after) == a + matched + b
  {
    assert a + "$&" + b == a + ("$&" + b);
    SubstitutionCopiesPrefix(a, "$&" + b, matched, before, after);
    SubstitutionExpandsMatch(b, matched, before, after);
  }

  /** `s.replace(pat, rep)` for a string pattern, searching from index `i`. */
  function ReplaceFrom(s: string, pat: string, rep: string, i: nat): string
    requires i <= |s|
    decreases |s| - i
  {
    if i + |pat| > |s| then s
    else if s[i..i + |pat|] == pat then s[..i] + Substitution(rep, pat, s[..i], s[i + |pat|..]) + s[i + |pat|..]
    else ReplaceFrom(s, pat, rep, i + 1)
  }

  /** `s.replace(pat, rep)` for a string pattern: only the first occurrence is replaced. */
  function Replace(s: string, pat: string, rep: string): string
  {
    ReplaceFrom(s, pat, rep, 0)
  }

  /** The scan replaces the first occurrence at or after `i`, if there is one. */
  lemma {:induction false} ReplaceFromFirst(s: string, pat: string, rep: string, i: nat)
    requires i <= |s|
    ensures FindFrom(s, pat, i).None? ==> ReplaceFrom(s, pat, rep, i) == s
    ensures FindFrom(s, pat, i).Some? ==>
      var j := FindFrom(s, pat, i).value;
      ReplaceFrom(s, pat, rep, i) == s[..j] + Substitution(rep, pat, s[..j], s[j + |pat|..]) + s[j + |pat|..]
    decreases |s| - i
  {
    if i + |pat| > |s| {
      assert FindFrom(s, pat, i).None? && ReplaceFrom(s, pat, rep, i) == s;
    } else if s[i..i + |pat|] == pat {
      assert FindFrom(s, pat, i) == Some(i);
    } else {
      assert FindFrom(s, pat, i) == FindFrom(s, pat, i + 1);
      assert ReplaceFrom(s, pat, rep, i) == ReplaceFrom(s, pat, rep, i + 1);
      ReplaceFromFirst(s, pat, rep, i + 1);
    }
  }

  /**
   * Without an occurrence of `pat` nothing changes; otherwise a
   * replacement without "$" takes the place of the first occurrence.
   */
  lemma ReplaceFirst(s: string, pat: string, rep: string)
    ensures IndexOf(s, pat).None? ==> Replace(s, pat, rep) == s
    ensures IndexOf(s, pat).Some? && '$' !in rep ==>
      var j := IndexOf(s, pat).value; Replace(s, pat, rep) == s[..j] + rep + s[j + |pat|..]
  {
    ReplaceFromFirst(s, pat, rep, 0);
  }

  const Template: string := "[fontname]" + ".[ext]"

  /**
   * Lines 168-172: the font's file name for one format, from the string
   * forms of the font name and of the format.
   */
  function Filename(fontName: string, ext: string): string
  {
    Replace(Replace(Template, "[fontname]", fontName), "[ext]", ext)
  }

  lemma TemplateStartsWithName()
    ensures IndexOf(Template, "[fontname]") == Some(0)
  {
    assert Template[0..10] == "[fontname]";
  }

  /** The first replacement puts the font name's substitution in front of ".[ext]". */
  lemma FontNameReplaced(name: string)
    ensures Replace(Template, "[fontname]", name) == Substitution(name, "[fontname]", [], ".[ext]") + ".[ext]"
  {
    TemplateStartsWithName();
    ReplaceFromFirst(Template, "[fontname]", name, 0);
    assert Template[..0] == [] && Template[10..] == ".[ext]";
  }

  /** In `name + ".[ext]"`, the first "[ext]" is the one after the dot when `name` has none. */
  lemma ExtAfterName(name: string)
    requires IndexOf(name, "[ext]").None?
    ensures IndexOf(name + ".[ext]", "[ext]") == Some(|name| + 1)
  {
    var s := name + ".[ext]";
    var pat := "[ext]";
    assert Occurs(s, pat, |name| + 1) by {
      assert s[|name| + 1..|name| + 6] == pat;
    }
    forall k | 0 <= k <= |name|
      ensures !Occurs(s, pat, k)
    {
      if k + 5 <= |name| {
        assert s[k..k + 5] == name[k..k + 5];
        assert !Occurs(name, pat, k);
      } else {
        assert s[|name|] == '.';
        assert s[k..k + 5][|name| - k] == '.';
      }
    }
  }

  /**
   * When the font name's substitution contains no "[ext]", a format
   * without "$" takes the place of the template's own "[ext]".
   */
  lemma FilenameAfterName(name: string, ext: string)
    requires '$' !in ext
    requires IndexOf(Substitution(name, "[fontname]", [], ".[ext]"), "[ext]").None?
    ensures Filename(name, ext) == Substitution(name, "[fontname]", [], ".[ext]") + "." + ext
  {
    FontNameReplaced(name);
    var m := Substitution(name, "[fontname]", [], ".[ext]");
    var s1 := m + ".[ext]";
    ExtAfterName(m);
    ReplaceFirst(s1, "[ext]", ext);
    assert s1[..|m| + 1] == m + ".";
    assert s1[|m| + 6..] == [];
  }

  /**
   * A font name without "$" or "[ext]" and a format without "$" give
   * "<fontName>.<format>".
   */
  lemma FilenameOfPlainName(name: string, ext: string)
    requires '$' !in name && '$' !in ext
    requires IndexOf(name, "[ext]").None?
    ensures Filename(name, ext) == name + "." + ext
  {
    FilenameAfterName(name, ext);
  }

  /**
   * A "$&" in the font name is expanded by `replace` to the matched
   * pattern, so the file name carries a literal "[fontname]" in its place.
   */
  lemma FilenameExpandsMatchPattern(a: string, b: string, ext: string)
    requires '$' !in a && '$' !in b && '$' !in ext
    requires IndexOf(a + "[fontname]" + b, "[ext]").None?
    ensures Filename(a + "$&" + b, ext) == a + "[fontname]" + b + "." + ext
  {
    SubstitutionOfMatch(a, b, "[fontname]", [], ".[ext]");
    FilenameAfterName(a + "$&" + b, ext);
  }

  lemma SlicesOfAppend(a: string, b: string, k: nat)
    requires k <= |a|
    ensures (a + b)[..k] == a[..k]
    ensures (a + b)[k..] == a[k..] + b
  {
  }

  /** An "[ext]" inside the name comes before the template's own. */
  lemma ExtInName(name: string, k: nat)
    requires IndexOf(name, "[ext]") == Some(k)
    ensures k + 5 <= |name|
    ensures IndexOf(name + ".[ext]", "[ext]") == Some(k)
  {
    var s1 := name + ".[ext]";
    assert Occurs(name, "[ext]", k);
    assert Occurs(s1, "[ext]", k) by {
      assert s1[k..k + 5] == name[k..k + 5];
    }
    forall j | 0 <= j < k
      ensures !Occurs(s1, "[ext]", j)
    {
      assert !Occurs(name, "[ext]", j);
      assert s1[j..j + 5] == name[j..j + 5];
    }
  }

  /**
   * Only the first "[ext]" is replaced: when the font name contains one,
   * the format goes there and the template's own "[ext]" stays.
   */
  lemma FilenameWithExtInName(name: string, ext: string, k: nat)
    requires '$' !in name && '$' !in ext
    requires IndexOf(name, "[ext]") == Some(k)
    ensures Filename(name, ext) == name[..k] + ext + name[k + 5..] + ".[ext]"
  {
    FontNameReplaced(name);
    var s1 := name + ".[ext]";
    ExtInName(name, k);
    ReplaceFirst(s1, "[ext]", ext);
    SlicesOfAppend(name, ".[ext]", k);
    SlicesOfAppend(name, ".[ext]", k + 5);
  }

  /** The map after the key/value writes `writes`, in order, onto `m`. */
  function Assign<T>(m: map<string, T>, writes: seq<(string, T)>): map<string, T>
  {
    if writes == [] then m
    else
      var last := writes[|writes| - 1];
      Assign(m, writes[..|writes| - 1])[last.0 := last.1]
  }

  lemma AssignSnoc<T>(m: map<string, T>, writes: seq<(string, T)>, w: (string, T))
    ensures Assign(m, writes + [w]) == Assign(m, writes)[w.0 := w.1]
  {
    assert (writes + [w])[..|writes|] == writes;
  }

  /** The keys written are added to the map's keys and nothing else is. */
  lemma {:induction false} AssignKeys<T>(m: map<string, T>, writes: seq<(string, T)>)
    ensures Assign(m, writes).Keys == m.Keys + set i | 0 <= i < |writes| :: writes[i].0
  {
    if writes != [] {
      var n := |writes| - 1;
      var prefix := writes[..n];
      AssignKeys(m, prefix);
      assert forall i :: 0 <= i < n ==> prefix[i] == writes[i];
      assert (set i | 0 <= i < |writes| :: writes[i].0)
          == (set i | 0 <= i < n :: prefix[i].0) + {writes[n].0};
    }
  }

  /** A key no write touches keeps its value, or its absence. */
  lemma {:induction false} AssignLeavesOtherKeys<T>(m: map<string, T>, writes: seq<(string, T)>, k: string)
    requires forall i :: 0 <= i < |writes| ==> writes[i].0 != k
    ensures k in Assign(m, writes) <==> k in m
    ensures k in m ==> Assign(m, writes)[k] == m[k]
  {
    if writes != [] {
      var n := |writes| - 1;
      assert forall i :: 0 <= i < n ==> writes[..n][i] == writes[i];
      AssignLeavesOtherKeys(m, writes[..n], k);
    }
  }

  /** A write that no later write to the same key follows is what the map holds. */
  lemma {:induction false} AssignKeepsLastWrite<T>(m: map<string, T>, writes: seq<(string, T)>, i: nat)
    requires i < |writes|
    requires forall j :: i < j < |writes| ==> writes[j].0 != writes[i].0
    ensures writes[i].0 in Assign(m, writes) && Assign(m, writes)[writes[i].0] == writes[i].1
  {
    var n := |writes| - 1;
    if i < n {
      var prefix := writes[..n];
      assert prefix[i] == writes[i];
      assert forall j :: i < j < n ==> prefix[j] == writes[j];
      AssignKeepsLastWrite(m, prefix, i);
    }
  }

  /** When writes to the same key always agree, every write is what the map holds. */
  lemma {:induction false} AssignConsistent<T>(m: map<string, T>, writes: seq<(string, T)>, i: nat)
    requires i < |writes|
    requires forall a, b :: 0 <= a < |writes| && 0 <= b < |writes| && writes[a].0 == writes[b].0 ==> writes[a].1 == writes[b].1
    ensures writes[i].0 in Assign(m, writes) && Assign(m, writes)[writes[i].0] == writes[i].1
  {
    var n := |writes| - 1;
    if i < n && writes[n].0 != writes[i].0 {
      var prefix := writes[..n];
      assert prefix[i] == writes[i];
      assert forall a :: 0 <= a < n ==> prefix[a] == writes[a];
      AssignConsistent(m, prefix, i);
    }
  }

  /** Everything one publish pass needs besides the formats. */
  datatype Job = Job(
    h: Host,
    context: string,            // the loader's context directory
    cssFontsPath: Value,        // the config's (defaulted) `cssFontsPath`
    fontName: Value,            // `generatorOptions.fontName`
    buffers: map<string, Bytes>,// the generator's result, by format name
    stamps: Stamps              // read once from the bundle file (line 60)
  )

  /** The file name for `format`. */
  function FileOf(job: Job, format: Value): string
  {
    Filename(ToJsString(job.fontName), ToJsString(format))
  }

  /**
   * Line 174 throws for `format`: `cssFontsPath` is not a string and the
   * file name is not an absolute path that would hide it.
   */
  predicate ModulePathFails(job: Job, format: Value)
  {
    !job.cssFontsPath.Str? && !IsAbsolute(Str(FileOf(job, format)))
  }

  /** Line 174 succeeds for every one of the formats. */
  predicate AllResolve(job: Job, formats: seq<Value>)
  {
    forall i :: 0 <= i < |formats| ==> !ModulePathFails(job, formats[i])
  }

  /** Line 174: where the file for `format` is cached. */
  function ModulePath(job: Job, format: Value): string
    requires !ModulePathFails(job, format)
  {
    job.h.resolve([Str(job.context), job.cssFontsPath, Str(FileOf(job, format))])
  }

  /** How many formats, from the first, are published before line 174 throws. */
  function Publishable(job: Job, formats: seq<Value>): (n: nat)
    ensures n <= |formats|
    ensures AllResolve(job, formats[..n])
    ensures n < |formats| ==> ModulePathFails(job, formats[n])
  {
    if formats == [] || ModulePathFails(job, formats[0]) then 0
    else
      var n := 1 + Publishable(job, formats[1..]);
      assert forall i :: 1 <= i < n ==> formats[..n][i] == formats[1..][..n - 1][i - 1];
      n
  }

  /** A string `cssFontsPath` lets every format through. */
  lemma {:induction false} StringFontsPathPublishesAll(job: Job, formats: seq<Value>)
    requires job.cssFontsPath.Str?
    ensures Publishable(job, formats) == |formats|
  {
    if formats != [] {
      StringFontsPathPublishesAll(job, formats[1..]);
    }
  }

  /**
   * An absolute font name gives an absolute file name, so line 174 never
   * reads `cssFontsPath` and succeeds whatever its value.
   */
  lemma AbsoluteFontNameHidesFontsPath(job: Job, format: Value)
    requires job.fontName.Str? && IsAbsolute(job.fontName)
    requires '$' !in job.fontName.s && '$' !in ToJsString(format)
    requires IndexOf(job.fontName.s, "[ext]").None?
    ensures FileOf(job, format) == job.fontName.s + "." + ToJsString(format)
    ensures !ModulePathFails(job, format)
  {
    assert ToJsString(job.fontName) == job.fontName.s;
    FilenameOfPlainName(job.fontName.s, ToJsString(format));
    assert FileOf(job, format)[0] == job.fontName.s[0];
  }

  /** `res[format]`: the buffer generated for `format`, if any. */
  function Contents(job: Job, format: Value): Option<Bytes>
  {
    if ToJsString(format) in job.buffers then Some(job.buffers[ToJsString(format)]) else None
  }

  /** The `urls[format] = filename` writes of the formats, in order. */
  function UrlWrites(job: Job, formats: seq<Value>): (w: seq<(string, string)>)
    ensures |w| == |formats|
    ensures forall i :: 0 <= i < |formats| ==> w[i] == (ToJsString(formats[i]), FileOf(job, formats[i]))
  {
    if formats == [] then []
    else
      var n := |formats| - 1;
      var f := formats[n];
      assert forall i :: 0 <= i < n ==> formats[..n][i] == formats[i];
      UrlWrites(job, formats[..n]) + [(ToJsString(f), FileOf(job, f))]
  }

  /** The cache writes of the formats, in order. */
  function CacheWrites(job: Job, formats: seq<Value>): (w: seq<(string, Entry)>)
    requires AllResolve(job, formats)
    ensures |w| == |formats|
    ensures forall i :: 0 <= i < |formats| ==>
      w[i] == (ModulePath(job, formats[i]), Entry(Contents(job, formats[i]), job.stamps))
  {
    if formats == [] then []
    else
      var n := |formats| - 1;
      var f := formats[n];
      assert forall i :: 0 <= i < n ==> formats[..n][i] == formats[i];
      CacheWrites(job, formats[..n]) + [(ModulePath(job, f), Entry(Contents(job, f), job.stamps))]
  }

  /** `urls` after the given formats have been published in order. */
  function Urls(job: Job, formats: seq<Value>): map<string, string>
  {
    Assign(map[], UrlWrites(job, formats))
  }

  /** The cache after the given formats have been published in order. */
  function Published(data: map<string, Entry>, job: Job, formats: seq<Value>): map<string, Entry>
    requires AllResolve(job, formats)
  {
    Assign(data, CacheWrites(job, formats))
  }

  /** `urls` has exactly the formats' names as keys. */
  lemma UrlsKeys(job: Job, formats: seq<Value>)
    ensures Urls(job, formats).Keys == set i | 0 <= i < |formats| :: ToJsString(formats[i])
  {
    var w := UrlWrites(job, formats);
    AssignKeys(map[], w);
    assert (set i | 0 <= i < |w| :: w[i].0) == set i | 0 <= i < |formats| :: ToJsString(formats[i]);
  }

  /** Every format's name maps to that format's file name. */
  lemma UrlsNameEveryFormat(job: Job, formats: seq<Value>, i: nat)
    requires i < |formats|
    ensures ToJsString(formats[i]) in Urls(job, formats)
    ensures Urls(job, formats)[ToJsString(formats[i])] == FileOf(job, formats[i])
  {
    AssignConsistent(map[], UrlWrites(job, formats), i);
  }

  /** A path that is no format's module path keeps its cached entry, or its absence. */
  lemma PublishedLeavesOtherPaths(data: map<string, Entry>, job: Job, formats: seq<Value>, p: string)
    requires AllResolve(job, formats)
    requires forall i :: 0 <= i < |formats| ==> ModulePath(job, formats[i]) != p
    ensures p in Published(data, job, formats) <==> p in data
    ensures p in data ==> Published(data, job, formats)[p] == data[p]
  {
    AssignLeavesOtherKeys(data, CacheWrites(job, formats), p);
  }

  /**
   * The entry at a format's module path holds that format's buffer and the
   * bundle's times, unless a later format has the same module path.
   */
  lemma PublishedStoresLastWrite(data: map<string, Entry>, job: Job, formats: seq<Value>, i: nat)
    requires AllResolve(job, formats)
    requires i < |formats|
    requires forall j :: i < j < |formats| ==> ModulePath(job, formats[j]) != ModulePath(job, formats[i])
    ensures ModulePath(job, formats[i]) in Published(data, job, formats)
    ensures Published(data, job, formats)[ModulePath(job, formats[i])] == Entry(Contents(job, formats[i]), job.stamps)
  {
    AssignKeepsLastWrite(data, CacheWrites(job, formats), i);
  }

  /** The paths the pass writes are exactly the formats' module paths. */
  lemma PublishedKeys(data: map<string, Entry>, job: Job, formats: seq<Value>)
    requires AllResolve(job, formats)
    ensures Published(data, job, formats).Keys
         == data.Keys + set i | 0 <= i < |formats| :: ModulePath(job, formats[i])
  {
    var w := CacheWrites(job, formats);
    AssignKeys(data, w);
    assert (set i | 0 <= i < |w| :: w[i].0) == set i | 0 <= i < |formats| :: ModulePath(job, formats[i]);
  }

  /** Publishing one more format extends both folds by its writes. */
  lemma PublishedStep(data: map<string, Entry>, job: Job, formats: seq<Value>, i: nat)
    requires i < |formats|
    requires AllResolve(job, formats[..i]) && !ModulePathFails(job, formats[i])
    ensures AllResolve(job, formats[..i + 1])
    ensures Urls(job, formats[..i + 1]) == Urls(job, formats[..i])[ToJsString(formats[i]) := FileOf(job, formats[i])]
    ensures Published(data, job, formats[..i + 1])
         == Published(data, job, formats[..i])[ModulePath(job, formats[i]) := Entry(Contents(job, formats[i]), job.stamps)]
  {
    var f := formats[i];
    assert formats[..i + 1] == formats[..i] + [f];
    AssignSnoc(map[], UrlWrites(job, formats[..i]), (ToJsString(f), FileOf(job, f)));
    AssignSnoc(data, CacheWrites(job, formats[..i]), (ModulePath(job, f), Entry(Contents(job, f), job.stamps)));
  }

  /**
   * One iteration of lines 166-187: derives the file name, then evicts
   * and rewrites the cache entry at its module path. When `path.resolve`
   * throws, nothing is changed.
   */
  method PublishFormat(fs: VirtualFs, job: Job, format: Value) returns (r: Result<string>)
    modifies fs
    ensures r.Err? <==> ModulePathFails(job, format)
    ensures r.Err? ==> r.error == TypeError("modulePath") && fs.data == old(fs.data)
    ensures r.Ok? ==> r.value == FileOf(job, format)
    ensures r.Ok? ==> fs.data == old(fs.data)[ModulePath(job, format) := Entry(Contents(job, format), job.stamps)]
  {
    var filename := Filename(ToJsString(job.fontName), ToJsString(format));

    var args := [Str(job.context), job.cssFontsPath, Str(filename)];
    var modulePath := ResolveValues(job.h, args, "modulePath");
    assert args[0].Str? && args[1] == job.cssFontsPath && args[2] == Str(filename);
    if modulePath.Err? {
      return Err(modulePath.error);
    }

    fs.Evict(modulePath.value);
    var contents := if ToJsString(format) in job.buffers then Some(job.buffers[ToJsString(format)]) else None;
    fs.Populate(modulePath.value, contents, job.stamps);
    r := Ok(filename);
  }

  /**
   * Lines 165-188: publishes every format in order and returns `urls`.
   * When line 174 throws, the formats before the failing one stay
   * published and nothing else is written.
   */
  method Publish(fs: VirtualFs, job: Job, formats: seq<Value>) returns (r: Result<map<string, string>>)
    modifies fs
    ensures r.Err? <==> Publishable(job, formats) < |formats|
    ensures r.Err? ==> r.error == TypeError("modulePath")
    ensures r.Ok? ==> r.value == Urls(job, formats)
    ensures fs.data == Published(old(fs.data), job, formats[..Publishable(job, formats)])
  {
    ghost var n := Publishable(job, formats);
    var urls: map<string, string> := map[];
    var i := 0;
    while i < |formats|
      invariant 0 <= i <= n
      invariant AllResolve(job, formats[..i])
      invariant urls == Urls(job, formats[..i])
      invariant fs.data == Published(old(fs.data), job, formats[..i])
    {
      var format := formats[i];
      if i < n {
        assert formats[..n][i] == format;
      }
      var filename := PublishFormat(fs, job, format);
      if filename.Err? {
        return Err(filename.error);
      }
      PublishedStep(old(fs.data), job, formats, i);
      urls := urls[ToJsString(format) := filename.value];
      i := i + 1;
    }
    assert formats[..i] == formats;
    r := Ok(urls);
  }
}
