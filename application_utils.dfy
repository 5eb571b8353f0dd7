/** Model of the helper rules the `juju` CLI uses when deploying and upgrading
    applications: rendering flag names, choosing which charm resources get
    their metadata re-uploaded on upgrade, and building the application
    config map from `key=value` pairs and an optional YAML file.

    Collaborators that the helpers only call (the gnuflag flag set, the
    resource lister, the file system) are replaced by the values they would
    report. */
module ApplicationUtils {

  /** The errors these helpers return. Errors coming from collaborators
      (the resource lister, the config flag) arrive as values of this type
      and are returned unchanged, as `errors.Trace` does. */
  datatype Error =
    | NotValid(message: string)           // errors.NotValid
    | TooManyConfigFiles(count: nat)      // more than one YAML config file
    | OptionFileTooLarge                  // an @file value over the size bound
    | CannotReadOptionFile(filename: string)
    | CannotReadFile(path: string)        // os.ReadFile of the YAML file failed
    | Collaborator(message: string)       // any other error of a collaborator

  datatype Result<T> = Ok(value: T) | Err(error: Error)

  // ---------------------------------------------------------------------
  // Flags
  // ---------------------------------------------------------------------

  /** The number of bytes the UTF-8 encoding of one character takes. */
  function Utf8Width(c: char): (w: nat)
    ensures 1 <= w <= 4
    ensures w == 1 <==> (c as int) < 0x80
  {
    if (c as int) < 0x80 then 1
    else if (c as int) < 0x800 then 2
    else if (c as int) < 0x10000 then 3
    else 4
  }

  /** The length of a string as Go's `len` counts it: UTF-8 bytes. */
  function Utf8Len(s: string): (r: nat)
    ensures |s| <= r <= 4 * |s|
    ensures r == |s| <==> forall i :: 0 <= i < |s| ==> (s[i] as int) < 0x80
  {
    if s == [] then 0 else Utf8Width(s[0]) + Utf8Len(s[1..])
  }

  /** The command-line spelling of a flag: long names (more than one byte
      in UTF-8) take two dashes, one-byte and empty names one dash. */
  function FlagWithMinus(name: string): (r: string)
    ensures |r| == |name| + (if Utf8Len(name) > 1 then 2 else 1)
    ensures r[|r| - |name|..] == name
    ensures forall i :: 0 <= i < |r| - |name| ==> r[i] == '-'
  {
    if Utf8Len(name) > 1 then "--" + name else "-" + name
  }

  /** A one-character name is long when its character is not ASCII. */
  lemma NonAsciiCharIsLongFlag(c: char)
    requires (c as int) >= 0x80
    ensures FlagWithMinus([c]) == "--" + [c]
  {
  }

  /** Reads a flag name back out of its rendering. */
  function FlagName(flag: string): string
    requires |flag| >= 1
  {
    if |flag| <= 2 then flag[1..] else flag[2..]
  }

  lemma FlagNameInvertsFlagWithMinus(name: string)
    ensures FlagName(FlagWithMinus(name)) == name
  {
  }

  /** Distinct flag names never render to the same command-line flag. */
  lemma FlagWithMinusInjective(a: string, b: string)
    requires FlagWithMinus(a) == FlagWithMinus(b)
    ensures a == b
  {
  }

  predicate Distinct(names: seq<string>)
  {
    forall i, j :: 0 <= i < j < |names| ==> names[i] != names[j]
  }

  /** What the inner loop of GetFlags appends for one visited flag: one
      rendering per occurrence of the flag's name in `names`. */
  function NameMatches(flag: string, names: seq<string>): seq<string>
  {
    if names == [] then []
    else
      NameMatches(flag, names[..|names| - 1])
      + (if names[|names| - 1] == flag then [FlagWithMinus(names[|names| - 1])] else [])
  }

  /** What GetFlags returns, visited flag by visited flag. */
  function SelectedFlags(visited: seq<string>, names: seq<string>): seq<string>
  {
    if visited == [] then []
    else SelectedFlags(visited[..|visited| - 1], names) + NameMatches(visited[|visited| - 1], names)
  }

  /** The visited flags whose name is in `names`, in visiting order. */
  function Kept(visited: seq<string>, names: seq<string>): (r: seq<string>)
  {
    if visited == [] then []
    else Kept(visited[..|visited| - 1], names)
         + (if visited[|visited| - 1] in names then [visited[|visited| - 1]] else [])
  }

  /** Each name rendered as a flag, in the same order. */
  function Dashed(names: seq<string>): (r: seq<string>)
  {
    if names == [] then []
    else Dashed(names[..|names| - 1]) + [FlagWithMinus(names[|names| - 1])]
  }

  /** Every element the inner loop appends is the flag's rendering, once for
      every occurrence of the flag in `names`. */
  lemma {:induction false} NameMatchesCount(flag: string, names: seq<string>)
    ensures |NameMatches(flag, names)| == multiset(names)[flag]
    ensures forall x :: x in NameMatches(flag, names) ==> x == FlagWithMinus(flag)
  {
    if names != [] {
      var p, last := names[..|names| - 1], names[|names| - 1];
      assert names == p + [last];
      NameMatchesCount(flag, p);
    }
  }

  /** With no repeated names, a visited flag contributes its rendering once
      if it is named, and nothing otherwise. */
  lemma {:induction false} NameMatchesDistinct(flag: string, names: seq<string>)
    requires Distinct(names)
    ensures NameMatches(flag, names) == if flag in names then [FlagWithMinus(flag)] else []
  {
    if names != [] {
      var p, last := names[..|names| - 1], names[|names| - 1];
      assert names == p + [last];
      assert Distinct(p);
      NameMatchesDistinct(flag, p);
      if last == flag {
        assert flag !in p;
      }
    }
  }

  /** A rendering is in the output exactly when some set flag is also named. */
  lemma {:induction false} SelectedFlagsMembers(visited: seq<string>, names: seq<string>, f: string)
    ensures f in SelectedFlags(visited, names)
            <==> exists n :: n in visited && n in names && f == FlagWithMinus(n)
  {
    if visited != [] {
      var p, last := visited[..|visited| - 1], visited[|visited| - 1];
      assert visited == p + [last];
      SelectedFlagsMembers(p, names, f);
      NameMatchesCount(last, names);
      if f in NameMatches(last, names) {
        assert last in names by {
          assert multiset(names)[last] > 0;
        }
      }
      if last in names && f == FlagWithMinus(last) {
        assert multiset(names)[last] > 0;
        assert NameMatches(last, names)[0] in NameMatches(last, names);
      }
    }
  }

  /** With no repeated names, the output is the named set flags, rendered,
      in the order they were visited. */
  lemma {:induction false} SelectedFlagsInVisitOrder(visited: seq<string>, names: seq<string>)
    requires Distinct(names)
    ensures SelectedFlags(visited, names) == Dashed(Kept(visited, names))
  {
    if visited != [] {
      var p, last := visited[..|visited| - 1], visited[|visited| - 1];
      SelectedFlagsInVisitOrder(p, names);
      NameMatchesDistinct(last, names);
      if last in names {
        var k := Kept(p, names) + [last];
        assert Kept(visited, names) == k;
        assert k[..|k| - 1] == Kept(p, names);
        assert Dashed(k) == Dashed(Kept(p, names)) + [FlagWithMinus(last)];
      } else {
        assert Kept(visited, names) == Kept(p, names);
      }
    }
  }

  /** GetFlags: the renderings of the flags that are set (`visited`, in the
      order the flag set visits them) and whose name is in `flagNames`. */
  method GetFlags(visited: seq<string>, flagNames: seq<string>) returns (flags: seq<string>)
    ensures flags == SelectedFlags(visited, flagNames)
    ensures forall f :: f in flags <==> exists n :: n in visited && n in flagNames && f == FlagWithMinus(n)
    ensures Distinct(flagNames) ==> flags == Dashed(Kept(visited, flagNames))
  {
    flags := [];
    var i := 0;
    while i < |visited|
      invariant 0 <= i <= |visited|
      invariant flags == SelectedFlags(visited[..i], flagNames)
    {
      var flag := visited[i];
      var j := 0;
      while j < |flagNames|
        invariant 0 <= j <= |flagNames|
        invariant flags == SelectedFlags(visited[..i], flagNames) + NameMatches(flag, flagNames[..j])
      {
        if flag == flagNames[j] {
          flags := flags + [FlagWithMinus(flagNames[j])];
        }
        assert flagNames[..j + 1][..j] == flagNames[..j];
        j := j + 1;
      }
      assert flagNames[..j] == flagNames;
      assert visited[..i + 1][..i] == visited[..i];
      i := i + 1;
    }
    assert visited[..i] == visited;
    forall f ensures f in flags <==> exists n :: n in visited && n in flagNames && f == FlagWithMinus(n) {
      SelectedFlagsMembers(visited, flagNames, f);
    }
    if Distinct(flagNames) {
      SelectedFlagsInVisitOrder(visited, flagNames);
    }
  }

  // ---------------------------------------------------------------------
  // Resources to upgrade
  // ---------------------------------------------------------------------

  /** Where the controller's copy of a resource came from. */
  datatype Origin = OriginUnknown | OriginUpload | OriginStore

  datatype ResourceType = File | OciImage

  /** A charm's declaration of a resource. */
  datatype Meta = Meta(name: string, kind: ResourceType, path: string, description: string)

  /** A resource the controller holds for the application. */
  datatype Resource = Resource(meta: Meta, origin: Origin, revision: int)

  /** The parts of a charm URL the helpers look at. */
  datatype CharmUrl = CharmUrl(schema: string, name: string, revision: int)

  /** The schema of a charm deployed from the local file system. */
  const LocalSchema: string := "local"

  function MissingResourceMessage(name: string): string
  {
    "new resource \"" + name + "\" was missing, please provide it via --resource"
  }

  /** Whether the metadata of resource `res` is uploaded on upgrade:
      always for resources the user supplies (`uploads`); for other
      resources only when the new charm is not local, and never over a
      resource the user uploaded earlier. A resource that is new to the
      controller and not supplied for a local charm is an error. */
  function ShouldUpgradeResource(
    newCharmUrl: CharmUrl, res: Meta, uploads: map<string, string>, current: map<string, Resource>
  ): (r: Result<bool>)
    ensures res.name in uploads ==> r == Ok(true)
    ensures r.Err? <==> res.name !in uploads && res.name !in current && newCharmUrl.schema == LocalSchema
    ensures r.Err? ==> r.error == NotValid(MissingResourceMessage(res.name))
    ensures r == Ok(true) <==>
              || res.name in uploads
              || (newCharmUrl.schema != LocalSchema
                  && (res.name !in current || current[res.name].origin != OriginUpload))
    ensures r == Ok(false) <==>
              && res.name !in uploads
              && res.name in current
              && (newCharmUrl.schema == LocalSchema || current[res.name].origin == OriginUpload)
  {
    if res.name in uploads then
      Ok(true)
    else if res.name !in current then
      if newCharmUrl.schema == LocalSchema then
        Err(NotValid(MissingResourceMessage(res.name)))
      else
        Ok(true)
    else if newCharmUrl.schema == LocalSchema then
      Ok(false)
    else
      Ok(current[res.name].origin != OriginUpload)
  }

  /** A resource the user uploaded earlier and does not supply again is
      never overridden. */
  lemma UploadedResourceStaysPinned(
    newCharmUrl: CharmUrl, res: Meta, uploads: map<string, string>, current: map<string, Resource>
  )
    requires res.name !in uploads && res.name in current && current[res.name].origin == OriginUpload
    ensures ShouldUpgradeResource(newCharmUrl, res, uploads, current) == Ok(false)
  {
  }

  /** What a run of filterResources may return: either the sub-map of `meta`
      holding exactly the entries to upgrade, with their values unchanged, or
      the error of one entry that failed, in which case no map is returned. */
  ghost predicate FilterOutcome(
    newCharmUrl: CharmUrl, meta: map<string, Meta>, current: map<string, Resource>,
    uploads: map<string, string>, r: Result<map<string, Meta>>
  )
  {
    && (r.Err? <==> exists n :: n in meta && ShouldUpgradeResource(newCharmUrl, meta[n], uploads, current).Err?)
    && (r.Err? ==> exists n :: n in meta && ShouldUpgradeResource(newCharmUrl, meta[n], uploads, current) == Err(r.error))
    && (r.Ok? ==> forall n :: n in r.value ==> n in meta && r.value[n] == meta[n])
    && (r.Ok? ==> forall n :: n in meta ==>
                    (n in r.value <==> ShouldUpgradeResource(newCharmUrl, meta[n], uploads, current) == Ok(true)))
  }

  /** filterResources: the resources of `meta` whose metadata is uploaded.
      Entries are examined in no particular order (Go map iteration); the
      first entry that fails ends the call with its error. */
  method FilterResources(
    newCharmUrl: CharmUrl, meta: map<string, Meta>, current: map<string, Resource>, uploads: map<string, string>
  ) returns (r: Result<map<string, Meta>>)
    ensures FilterOutcome(newCharmUrl, meta, current, uploads, r)
  {
    var filtered: map<string, Meta> := map[];
    var remaining := meta.Keys;
    while remaining != {}
      invariant remaining <= meta.Keys
      invariant forall n :: n in meta && n !in remaining ==> ShouldUpgradeResource(newCharmUrl, meta[n], uploads, current).Ok?
      invariant forall n :: n in filtered ==> n in meta && n !in remaining && filtered[n] == meta[n]
      invariant forall n :: n in meta && n !in remaining ==>
                  (n in filtered <==> ShouldUpgradeResource(newCharmUrl, meta[n], uploads, current) == Ok(true))
      decreases remaining
    {
      var name :| name in remaining;
      var res := meta[name];
      var doUpgrade := ShouldUpgradeResource(newCharmUrl, res, uploads, current);
      if doUpgrade.Err? {
        return Err(doUpgrade.error);
      }
      if doUpgrade.value {
        filtered := filtered[name := res];
      }
      remaining := remaining - {name};
    }
    return Ok(filtered);
  }

  /** GetUpgradeResources: `listed` is what the resource lister reports for
      the application (its resources keyed by name), consulted only when the
      new charm declares resources at all. */
  method GetUpgradeResources(
    newCharmUrl: CharmUrl, listed: Result<map<string, Resource>>,
    cliResources: map<string, string>, meta: map<string, Meta>
  ) returns (r: Result<map<string, Meta>>)
    ensures |meta| == 0 ==> r == Ok(map[])
    ensures |meta| > 0 && listed.Err? ==> r == Err(listed.error)
    ensures |meta| > 0 && listed.Ok? ==> FilterOutcome(newCharmUrl, meta, listed.value, cliResources, r)
  {
    if |meta| == 0 {
      return Ok(map[]);
    }
    if listed.Err? {
      return Err(listed.error);
    }
    r := FilterResources(newCharmUrl, meta, listed.value, cliResources);
  }

  // ---------------------------------------------------------------------
  // Config values
  // ---------------------------------------------------------------------

  /** The largest option file ReadValue accepts, in bytes (5M). */
  const MaxValueSize: nat := 5242880

  /** What the file system reports: the size `Stat` gives for a name, and
      the content `ReadFile` gives for it; a missing name is a failing call. */
  datatype Filesystem = Filesystem(sizes: map<string, nat>, contents: map<string, string>)

  /** ReadValue: the content of the named option file, refused when the file
      cannot be examined, is larger than MaxValueSize, or cannot be read. */
  function ReadValue(fs: Filesystem, filename: string): (r: Result<string>)
    ensures r.Ok? <==> filename in fs.sizes && fs.sizes[filename] <= MaxValueSize && filename in fs.contents
    ensures r.Ok? ==> r.value == fs.contents[filename]
    ensures filename !in fs.sizes ==> r == Err(CannotReadOptionFile(filename))
    ensures filename in fs.sizes && fs.sizes[filename] > MaxValueSize ==> r == Err(OptionFileTooLarge)
    ensures filename in fs.sizes && fs.sizes[filename] <= MaxValueSize && filename !in fs.contents
            ==> r == Err(CannotReadOptionFile(filename))
  {
    if filename !in fs.sizes then Err(CannotReadOptionFile(filename))
    else if fs.sizes[filename] > MaxValueSize then Err(OptionFileTooLarge)
    else if filename !in fs.contents then Err(CannotReadOptionFile(filename))
    else Ok(fs.contents[filename])
  }

  /** The config key that always carries the --trust flag. */
  const TrustConfigOptionName: string := "trust"

  /** strconv.FormatBool. */
  function FormatBool(b: bool): string
  {
    if b then "true" else "false"
  }

  /** A config value of the form `@path` stands for the content of `path`. */
  predicate IsFileReference(v: string)
  {
    |v| >= 1 && v[0] == '@'
  }

  /** The value a config pair contributes after `@path` expansion. */
  function ExpandValue(fs: Filesystem, v: string): Result<string>
  {
    if IsFileReference(v) then ReadValue(fs, v[1..]) else Ok(v)
  }

  datatype ProcessedConfig = ProcessedConfig(appConfig: map<string, string>, configYaml: string)

  /** The file steps of ProcessConfig succeed: at most one YAML file, and it
      can be read. */
  ghost predicate FilesAccepted(fs: Filesystem, files: Result<seq<string>>)
  {
    files.Ok? && |files.value| <= 1 && (|files.value| == 1 ==> files.value[0] in fs.contents)
  }

  /** ProcessConfig: `files` and `pairs` are what the config flag reports
      (the absolute YAML file names and the `key=value` pairs). Values of
      the form `@path` are replaced by the file's content, pairs are examined
      in no particular order, and the trust key is finally set from `trust`. */
  method ProcessConfig(
    fs: Filesystem, files: Result<seq<string>>, pairs: Result<map<string, string>>, trust: bool
  ) returns (r: Result<ProcessedConfig>)
    ensures files.Err? ==> r == Err(files.error)
    ensures files.Ok? && |files.value| > 1 ==> r == Err(TooManyConfigFiles(|files.value|))
    ensures files.Ok? && |files.value| == 1 && files.value[0] !in fs.contents
            ==> r == Err(CannotReadFile(files.value[0]))
    ensures FilesAccepted(fs, files) && pairs.Err? ==> r == Err(pairs.error)
    ensures r.Ok? ==> FilesAccepted(fs, files) && pairs.Ok?
    ensures FilesAccepted(fs, files) && pairs.Ok? ==>
              (r.Ok? <==> forall k :: k in pairs.value ==> ExpandValue(fs, pairs.value[k]).Ok?)
    ensures FilesAccepted(fs, files) && pairs.Ok? && r.Err? ==>
              exists k :: k in pairs.value && ExpandValue(fs, pairs.value[k]) == Err(r.error)
    ensures r.Ok? ==> r.value.appConfig.Keys == pairs.value.Keys + {TrustConfigOptionName}
    ensures r.Ok? ==> r.value.appConfig[TrustConfigOptionName] == FormatBool(trust)
    ensures r.Ok? ==> forall k :: k in pairs.value && k != TrustConfigOptionName && !IsFileReference(pairs.value[k])
                                  ==> r.value.appConfig[k] == pairs.value[k]
    ensures r.Ok? ==> forall k :: k in pairs.value && k != TrustConfigOptionName && IsFileReference(pairs.value[k])
                                  ==> r.value.appConfig[k] == fs.contents[pairs.value[k][1..]]
    ensures r.Ok? ==> r.value.configYaml == if |files.value| == 1 then fs.contents[files.value[0]] else ""
  {
    var configYaml := "";
    if files.Err? {
      return Err(files.error);
    }
    if |files.value| > 1 {
      return Err(TooManyConfigFiles(|files.value|));
    }
    if |files.value| == 1 {
      if files.value[0] !in fs.contents {
        return Err(CannotReadFile(files.value[0]));
      }
      configYaml := fs.contents[files.value[0]];
    }
    if pairs.Err? {
      return Err(pairs.error);
    }
    var attr := pairs.value;
    var appConfig: map<string, string> := map[];
    var remaining := attr.Keys;
    while remaining != {}
      invariant remaining <= attr.Keys
      invariant appConfig.Keys == attr.Keys - remaining
      invariant forall k :: k in appConfig ==> ExpandValue(fs, attr[k]) == Ok(appConfig[k])
      decreases remaining
    {
      var k :| k in remaining;
      appConfig := appConfig[k := attr[k]];
      if IsFileReference(appConfig[k]) {
        var read := ReadValue(fs, appConfig[k][1..]);
        if read.Err? {
          return Err(read.error);
        }
        appConfig := appConfig[k := read.value];
      }
      remaining := remaining - {k};
    }
    appConfig := appConfig[TrustConfigOptionName := FormatBool(trust)];
    return Ok(ProcessedConfig(appConfig, configYaml));
  }
}
