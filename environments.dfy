/**
 * Environments of a project, as `appgarden.toml` declares them: the `[app]` table holds the app
 * name, an optional slug and defaults for every environment, and each `[environments.<name>]`
 * table overrides those defaults. Resolving an environment merges the two layers: `env` and `meta`
 * are merged key by key, `exclude` and `volumes` are concatenated without repeats, every other key
 * of the environment replaces the app default, and the placeholders `{app.name}`, `{app.slug}` and
 * `{env.name}` are substituted in the string values and in `env`.
 */
module Environments {
  import opened Wrappers
  import opened Strings
  import opened Dict
  import opened Values
  import Config

  const ProjectFileName := "appgarden.toml"
  const Production := "production"
  const NameSeparator := "-"
  const PathSeparator := "/"

  const AppKey := "app"
  const NameKey := "name"
  const SlugKey := "slug"
  const EnvironmentsKey := "environments"
  const EnvKey := "env"
  const MetaKey := "meta"
  const ExcludeKey := "exclude"
  const VolumesKey := "volumes"
  const ServerKey := "server"
  const MethodKey := "method"
  const UrlKey := "url"
  const SourceKey := "source"
  const PortKey := "port"
  const ContainerPortKey := "container_port"
  const CmdKey := "cmd"
  const SetupCmdKey := "setup_cmd"
  const BranchKey := "branch"
  const SubdomainKey := "subdomain"
  const PathKey := "path"
  const DomainKey := "domain"
  const EnvFileKey := "env_file"
  const GitignoreKey := "gitignore"

  const AppNameToken := "{app.name}"
  const AppSlugToken := "{app.slug}"
  const EnvNameToken := "{env.name}"

  const NotFoundPrefix := "Environment '"
  const NotFoundInfix := "' not found in appgarden.toml. Available: "
  const ListSeparator := ", "
  const NoneAvailable := "(none)"
  const NameRequiredMessage := "appgarden.toml must have [app] name"
  const NoProjectFilePrefix := "No appgarden.toml found in "

  /** `ProjectConfig`: the parsed project file. */
  datatype ProjectConfig = ProjectConfig(
    appName: string,
    appSlug: Option<string>,
    appDefaults: Dict<string, Value>,
    environments: Dict<string, Dict<string, Value>>)

  /** `EnvironmentConfig`: one resolved environment; the scalar fields hold whatever value the layers gave. */
  datatype EnvironmentConfig = EnvironmentConfig(
    name: string,
    appName: string,
    server: Option<Value>,
    deployMethod: Option<Value>,
    url: Option<Value>,
    source: Option<Value>,
    port: Option<Value>,
    containerPort: Option<Value>,
    cmd: Option<Value>,
    setupCmd: Option<Value>,
    branch: Option<Value>,
    subdomain: Option<Value>,
    path: Option<Value>,
    domain: Option<Value>,
    env: Dict<string, Value>,
    envFile: Option<Value>,
    meta: Dict<string, Value>,
    exclude: seq<string>,
    volumes: seq<string>,
    gitignore: Value)

  // ---------------------------------------------------------------------------------------
  // Deployed app names
  // ---------------------------------------------------------------------------------------

  /** `derive_app_name`: production deploys under the base name, any other environment under `<base>-<env>`. */
  function DeriveAppName(base: string, envName: string): string {
    if envName == Production then base else base + NameSeparator + envName
  }

  /** Different environments of one app deploy under different names, and only production under the base name. */
  lemma DerivedNamesDistinct(base: string, e1: string, e2: string)
    ensures DeriveAppName(base, e1) == DeriveAppName(base, e2) <==> e1 == e2
    ensures DeriveAppName(base, e1) == base <==> e1 == Production
  {
    var n := |base| + |NameSeparator|;
    if e1 != Production {
      assert |DeriveAppName(base, e1)| == n + |e1|;
      assert DeriveAppName(base, e1)[n..] == e1;
    }
    if e2 != Production {
      assert |DeriveAppName(base, e2)| == n + |e2|;
      assert DeriveAppName(base, e2)[n..] == e2;
    }
  }

  // ---------------------------------------------------------------------------------------
  // The not-found message
  // ---------------------------------------------------------------------------------------

  /** `", ".join(sorted(names)) or "(none)"`. */
  function Available(names: seq<string>): string {
    var joined := Join(Sort(names), ListSeparator);
    if joined == "" then NoneAvailable else joined
  }

  /** The message of the ValueError for an undefined environment. */
  function NotFoundMessage(envName: string, names: seq<string>): string {
    NotFoundPrefix + envName + NotFoundInfix + Available(names)
  }

  /** Every part occurs in the joined string. */
  lemma {:induction false} JoinContains(parts: seq<string>, sep: string, k: nat)
    requires k < |parts|
    ensures Contains(Join(parts, sep), parts[k])
    decreases |parts|
  {
    var j := Join(parts, sep);
    if |parts| == 1 {
      assert OccursAt(j, parts[k], 0);
    } else if k == 0 {
      assert j == parts[0] + (sep + Join(parts[1..], sep));
      assert j[0..|parts[0]|] == parts[0];
      assert OccursAt(j, parts[k], 0);
    } else {
      JoinContains(parts[1..], sep, k - 1);
      var rest := Join(parts[1..], sep);
      var i :| 0 <= i <= |rest| - |parts[k]| && OccursAt(rest, parts[1..][k - 1], i);
      var n := |parts[0] + sep|;
      assert j == (parts[0] + sep) + rest;
      assert j[n + i..n + i + |parts[k]|] == rest[i..i + |parts[k]|];
      assert OccursAt(j, parts[k], n + i);
    }
  }

  /** What occurs in the end of a string occurs in the string. */
  lemma ContainsSuffix(a: string, b: string, sub: string)
    requires Contains(b, sub)
    ensures Contains(a + b, sub)
  {
    var i :| 0 <= i <= |b| - |sub| && OccursAt(b, sub, i);
    assert (a + b)[|a| + i..|a| + i + |sub|] == b[i..i + |sub|];
    assert OccursAt(a + b, sub, |a| + i);
  }

  /** The message names every defined environment, and says `(none)` when there is none. */
  lemma NotFoundListsAll(envName: string, names: seq<string>)
    ensures names == [] ==> Available(names) == NoneAvailable
    ensures forall n | n in names :: Contains(NotFoundMessage(envName, names), n)
  {
    var sorted := Sort(names);
    var joined := Join(sorted, ListSeparator);
    forall n | n in names ensures Contains(NotFoundMessage(envName, names), n) {
      var k :| 0 <= k < |sorted| && sorted[k] == n;
      JoinContains(sorted, ListSeparator, k);
      if joined == "" {
        assert |n| == 0;
        assert OccursAt(NoneAvailable, n, 0);
      }
      assert Contains(Available(names), n);
      ContainsSuffix(NotFoundPrefix + envName + NotFoundInfix, Available(names), n);
    }
  }

  // ---------------------------------------------------------------------------------------
  // Concatenate, then drop repeats
  // ---------------------------------------------------------------------------------------

  /** The elements of `xs` without later repeats. */
  function Unique(xs: seq<string>): seq<string> {
    if xs == [] then []
    else
      var init := xs[..|xs| - 1];
      Unique(init) + if xs[|xs| - 1] in init then [] else [xs[|xs| - 1]]
  }

  /** The position of the first occurrence of `x` in `xs`. */
  function FirstIndex(xs: seq<string>, x: string): (i: nat)
    requires x in xs
    ensures i < |xs| && xs[i] == x
    ensures forall k | 0 <= k < i :: xs[k] != x
  {
    if xs[0] == x then 0 else FirstIndex(xs[1..], x) + 1
  }

  /** `r` holds the elements of `xs` once each, in the order of their first occurrences. */
  ghost predicate DedupedFrom(r: seq<string>, xs: seq<string>) {
    && (forall y :: y in r <==> y in xs)
    && (forall i, j | 0 <= i < j < |r| :: r[i] != r[j])
    && (forall i, j | 0 <= i < j < |r| :: r[i] in xs && r[j] in xs && FirstIndex(xs, r[i]) < FirstIndex(xs, r[j]))
  }

  /** First occurrences in a sequence with one more element at the end. */
  lemma FirstIndexSnoc(init: seq<string>, x: string, y: string)
    requires y in init
    ensures FirstIndex(init + [x], y) == FirstIndex(init, y)
  {
    var xs := init + [x];
    var i, j := FirstIndex(xs, y), FirstIndex(init, y);
    assert xs[j] == y;
    assert i <= j;
    assert init[i] == xs[i];
  }

  /** Dropping repeats keeps every element once, in first-occurrence order. */
  lemma {:induction false} UniqueDeduplicates(xs: seq<string>)
    ensures DedupedFrom(Unique(xs), xs)
    decreases |xs|
  {
    if xs != [] {
      var init := xs[..|xs| - 1];
      var x := xs[|xs| - 1];
      assert xs == init + [x];
      UniqueDeduplicates(init);
      var u := Unique(init);
      var r := Unique(xs);
      forall y | y in u ensures FirstIndex(xs, y) == FirstIndex(init, y) {
        FirstIndexSnoc(init, x, y);
      }
      if x !in init {
        assert r == u + [x];
        assert forall k | 0 <= k < |init| :: xs[k] == init[k];
        assert FirstIndex(xs, x) == |init|;
      } else {
        assert r == u;
      }
    }
  }

  /** The dedupe loop of `resolve_environment`, with its `seen` set. */
  method Deduplicated(xs: seq<string>) returns (r: seq<string>)
    ensures r == Unique(xs)
  {
    var seen: set<string> := {};
    r := [];
    var i := 0;
    while i < |xs|
      invariant 0 <= i <= |xs|
      invariant r == Unique(xs[..i])
      invariant forall y :: y in seen <==> y in xs[..i]
    {
      assert xs[..i + 1][..i] == xs[..i];
      if xs[i] !in seen {
        seen := seen + {xs[i]};
        r := r + [xs[i]];
      }
      i := i + 1;
    }
    assert xs[..i] == xs;
  }

  // ---------------------------------------------------------------------------------------
  // Reading the layers
  // ---------------------------------------------------------------------------------------

  /** `x.get(key, {})` used as a mapping: TypeError when the value is not a table. */
  function TableOr(v: Option<Value>): Result<Dict<string, Value>> {
    match v
    case None => Ok([])
    case Some(Table(t)) => Ok(t)
    case Some(_) => Err(TypeError(Config.NotMapping))
  }

  /** The table under `key`, or an empty one. */
  function TableAt(d: Dict<string, Value>, key: string): Dict<string, Value> {
    var v := Get(d, key);
    if v.Some? && v.value.Table? then v.value.entries else []
  }

  predicate IsStringList(v: Value) {
    v.Arr? && forall i | 0 <= i < |v.items| :: v.items[i].Str?
  }

  /**
   * `list(v)` where the result is a list of strings: a list of strings as it is, a string as its
   * characters and a table as its keys; any other value is not a list of strings.
   */
  function ListOfStrings(v: Value): Option<seq<string>> {
    match v
    case Str(s) => Some(seq(|s|, i requires 0 <= i < |s| => [s[i]]))
    case Table(t) => Some(Keys(t))
    case Arr(xs) => if IsStringList(v) then Some(AsStrings(xs)) else None
    case _ => None
  }

  /** `list(x.get(key, []))` of strings: TypeError when the value does not give a list of strings. */
  function StringsOr(v: Option<Value>): Result<seq<string>> {
    if v.None? then Ok([])
    else if ListOfStrings(v.value).Some? then Ok(ListOfStrings(v.value).value)
    else Err(TypeError(Config.NotStringList))
  }

  /** The strings under `key`, or none. */
  function StringsAt(d: Dict<string, Value>, key: string): seq<string> {
    var v := Get(d, key);
    if v.Some? && ListOfStrings(v.value).Some? then ListOfStrings(v.value).value else []
  }

  /** `list()` of a string is its characters, each a string of its own: `"ab"` gives `["a", "b"]`. */
  lemma StringListsCharacters(d: Dict<string, Value>, key: string, s: string)
    requires Get(d, key) == Some(Str(s))
    ensures StringsOr(Get(d, key)).Ok?
    ensures |StringsAt(d, key)| == |s|
    ensures forall i | 0 <= i < |s| :: StringsAt(d, key)[i] == [s[i]]
  {
  }

  /** `list()` of a table is its keys, in order. */
  lemma TableListsKeys(d: Dict<string, Value>, key: string, t: Dict<string, Value>)
    requires Get(d, key) == Some(Table(t))
    ensures StringsOr(Get(d, key)).Ok?
    ensures StringsAt(d, key) == Keys(t)
  {
  }

  /** The keys merged by their own rule and kept out of the scalar overlay. */
  predicate IsMergedKey(k: string) {
    k == EnvKey || k == MetaKey || k == ExcludeKey || k == VolumesKey
  }

  /** The environment table, or an empty one for an undefined environment. */
  function EnvData(config: ProjectConfig, envName: string): Dict<string, Value> {
    var v := Get(config.environments, envName);
    if v.Some? then v.value else []
  }

  /** The app defaults without the four merged keys: `merged` after the four `pop`s. */
  function Base(config: ProjectConfig): Dict<string, Value> {
    Remove(Remove(Remove(Remove(config.appDefaults, EnvKey), MetaKey), ExcludeKey), VolumesKey)
  }

  // ---------------------------------------------------------------------------------------
  // Overlay
  // ---------------------------------------------------------------------------------------

  /** `for k, v in s: if k not in (...): m[k] = v`. */
  function Overlaid(m: Dict<string, Value>, s: seq<(string, Value)>): Dict<string, Value>
    decreases |s|
  {
    if s == [] then m
    else Overlaid(if IsMergedKey(s[0].0) then m else Set(m, s[0].0, s[0].1), s[1..])
  }

  /** After the overlay a key has the environment's value when it has one, and the default's otherwise. */
  lemma {:induction false} OverlaidGet(m: Dict<string, Value>, d: Dict<string, Value>, k: string)
    ensures Get(Overlaid(m, d), k) == if !IsMergedKey(k) && HasKey(d, k) then Get(d, k) else Get(m, k)
    decreases |d|
  {
    if d != [] {
      FirstKeyUnique(d);
      var m' := if IsMergedKey(d[0].0) then m else Set(m, d[0].0, d[0].1);
      OverlaidGet(m', d[1..], k);
    }
  }

  /** The overlay loop of `resolve_environment`. */
  method OverlayEnvironment(merged: Dict<string, Value>, envData: Dict<string, Value>) returns (r: Dict<string, Value>)
    ensures r == Overlaid(merged, envData)
  {
    r := merged;
    var i := 0;
    while i < |envData|
      invariant 0 <= i <= |envData|
      invariant Overlaid(r, envData[i..]) == Overlaid(merged, envData)
    {
      var (k, v) := envData[i];
      assert envData[i..][1..] == envData[i + 1..];
      if !IsMergedKey(k) {
        r := Set(r, k, v);
      }
      i := i + 1;
    }
  }

  // ---------------------------------------------------------------------------------------
  // Placeholders
  // ---------------------------------------------------------------------------------------

  datatype Placeholders = Placeholders(appName: string, appSlug: string, envName: string)

  /** The placeholder values; `{app.slug}` falls back to the app name when the slug is unset or empty. */
  function PlaceholdersOf(config: ProjectConfig, envName: string): Placeholders {
    var slug := if config.appSlug.None? || config.appSlug.value == "" then config.appName else config.appSlug.value;
    Placeholders(config.appName, slug, envName)
  }

  /** The three literal replacements, in the order of the placeholder table. */
  function Substituted(s: string, p: Placeholders): string {
    Replace(Replace(Replace(s, AppNameToken, p.appName), AppSlugToken, p.appSlug), EnvNameToken, p.envName)
  }

  /** Only string values are substituted. */
  function SubstitutedValue(v: Value, p: Placeholders): Value {
    if v.Str? then Str(Substituted(v.s, p)) else v
  }

  function SubstitutedOpt(v: Option<Value>, p: Placeholders): Option<Value> {
    if v.Some? then Some(SubstitutedValue(v.value, p)) else None
  }

  /** A text without placeholders is left as it is, and each placeholder alone becomes its value. */
  lemma SubstitutionLiteral(s: string, p: Placeholders)
    ensures !Contains(s, AppNameToken) && !Contains(s, AppSlugToken) && !Contains(s, EnvNameToken) ==> Substituted(s, p) == s
    ensures Substituted(EnvNameToken, p) == p.envName
    ensures !Contains(p.appSlug, EnvNameToken) ==> Substituted(AppSlugToken, p) == p.appSlug
    ensures !Contains(p.appName, AppSlugToken) && !Contains(p.appName, EnvNameToken) ==> Substituted(AppNameToken, p) == p.appName
  {
    if !Contains(s, AppNameToken) && !Contains(s, AppSlugToken) && !Contains(s, EnvNameToken) {
      ReplaceAbsent(s, AppNameToken, p.appName);
      ReplaceAbsent(s, AppSlugToken, p.appSlug);
      ReplaceAbsent(s, EnvNameToken, p.envName);
    }
    assert !OccursAt(EnvNameToken, AppNameToken, 0) by { assert EnvNameToken[1] != AppNameToken[1]; }
    assert !OccursAt(EnvNameToken, AppSlugToken, 0) by { assert EnvNameToken[1] != AppSlugToken[1]; }
    assert !OccursAt(AppSlugToken, AppNameToken, 0) by { assert AppSlugToken[5] != AppNameToken[5]; }
    ReplaceAbsent(EnvNameToken, AppNameToken, p.appName);
    ReplaceAbsent(EnvNameToken, AppSlugToken, p.appSlug);
    ReplaceWhole(EnvNameToken, p.envName);
    ReplaceAbsent(AppSlugToken, AppNameToken, p.appName);
    ReplaceWhole(AppSlugToken, p.appSlug);
    if !Contains(p.appSlug, EnvNameToken) {
      ReplaceAbsent(p.appSlug, EnvNameToken, p.envName);
    }
    ReplaceWhole(AppNameToken, p.appName);
    if !Contains(p.appName, AppSlugToken) && !Contains(p.appName, EnvNameToken) {
      ReplaceAbsent(p.appName, AppSlugToken, p.appSlug);
      ReplaceAbsent(p.appName, EnvNameToken, p.envName);
    }
  }

  /** Every value substituted: the dictionary after the substitution loop. */
  function SubstitutedAll(d: Dict<string, Value>, p: Placeholders): (r: Dict<string, Value>)
    ensures forall k :: Get(r, k) == SubstitutedOpt(Get(d, k), p)
    decreases |d|
  {
    if d == [] then []
    else
      FirstKeyUnique(d);
      var rest := SubstitutedAll(d[1..], p);
      ConsDistinct((d[0].0, SubstitutedValue(d[0].1, p)), rest);
      [(d[0].0, SubstitutedValue(d[0].1, p))] + rest
  }

  /** The substitution keeps every entry in its place. */
  lemma {:induction false} SubstitutedAllAt(d: Dict<string, Value>, p: Placeholders)
    ensures |SubstitutedAll(d, p)| == |d|
    ensures forall j | 0 <= j < |d| :: SubstitutedAll(d, p)[j] == (d[j].0, SubstitutedValue(d[j].1, p))
    decreases |d|
  {
    if d != [] {
      SubstitutedAllAt(d[1..], p);
    }
  }

  /** The substitution loops of `resolve_environment`: each string value is reassigned in place. */
  method SubstituteStrings(d: Dict<string, Value>, p: Placeholders) returns (r: Dict<string, Value>)
    ensures r == SubstitutedAll(d, p)
  {
    r := d;
    var i := 0;
    while i < |r|
      invariant 0 <= i <= |d| && |r| == |d|
      invariant forall j | 0 <= j < |d| :: r[j] == if j < i then (d[j].0, SubstitutedValue(d[j].1, p)) else d[j]
    {
      var (k, v) := r[i];
      if v.Str? {
        SetAt(r, i, Str(Substituted(v.s, p)));
        r := Set(r, k, Str(Substituted(v.s, p)));
      }
      i := i + 1;
    }
    SubstitutedAllAt(d, p);
  }

  /** Every value is a string. */
  predicate AllStrings(d: Dict<string, Value>) {
    forall i | 0 <= i < |d| :: d[i].1.Str?
  }

  // ---------------------------------------------------------------------------------------
  // resolve_environment
  // ---------------------------------------------------------------------------------------

  /** The record built from the merged layers. */
  function Configured(name: string, appName: string, merged: Dict<string, Value>, env: Dict<string, Value>,
                      meta: Dict<string, Value>, exclude: seq<string>, volumes: seq<string>): EnvironmentConfig {
    EnvironmentConfig(
      name, appName,
      Get(merged, ServerKey), Get(merged, MethodKey), Get(merged, UrlKey), Get(merged, SourceKey),
      Get(merged, PortKey), Get(merged, ContainerPortKey), Get(merged, CmdKey), Get(merged, SetupCmdKey),
      Get(merged, BranchKey), Get(merged, SubdomainKey), Get(merged, PathKey), Get(merged, DomainKey),
      env, Get(merged, EnvFileKey), meta, exclude, volumes, Get(merged, GitignoreKey).GetOr(Bool(true)))
  }

  /** The value of `k` in `first` when it has one, else in `second`: `{**second, **first}[k]`. */
  function Either(first: Dict<string, Value>, second: Dict<string, Value>, k: string): Option<Value> {
    if HasKey(first, k) then Get(first, k) else Get(second, k)
  }

  /** A layered scalar: the environment's value when it has the key, else the default's, substituted. */
  function Layered(config: ProjectConfig, envName: string, k: string): Option<Value> {
    SubstitutedOpt(Either(EnvData(config, envName), config.appDefaults, k), PlaceholdersOf(config, envName))
  }

  /** The layers have the shapes resolution needs: tables for `env` and `meta`, string lists, string `env` values. */
  ghost predicate WellShaped(config: ProjectConfig, envName: string) {
    var app, d := config.appDefaults, EnvData(config, envName);
    && TableOr(Get(app, EnvKey)).Ok? && TableOr(Get(d, EnvKey)).Ok?
    && TableOr(Get(app, MetaKey)).Ok? && TableOr(Get(d, MetaKey)).Ok?
    && StringsOr(Get(app, ExcludeKey)).Ok? && StringsOr(Get(d, ExcludeKey)).Ok?
    && StringsOr(Get(app, VolumesKey)).Ok? && StringsOr(Get(d, VolumesKey)).Ok?
    && AllStrings(Merge(TableAt(app, EnvKey), TableAt(d, EnvKey)))
  }

  /**
   * The scalar fields of `e` are resolved: the environment overrides each default and a default it
   * lacks survives, strings substituted; `gitignore` is true unless a layer sets it.
   */
  ghost predicate ScalarsResolved(config: ProjectConfig, envName: string, e: EnvironmentConfig) {
    && e.name == envName
    && e.appName == DeriveAppName(config.appName, envName)
    && e.server == Layered(config, envName, ServerKey)
    && e.deployMethod == Layered(config, envName, MethodKey)
    && e.url == Layered(config, envName, UrlKey)
    && e.source == Layered(config, envName, SourceKey)
    && e.port == Layered(config, envName, PortKey)
    && e.containerPort == Layered(config, envName, ContainerPortKey)
    && e.cmd == Layered(config, envName, CmdKey)
    && e.setupCmd == Layered(config, envName, SetupCmdKey)
    && e.branch == Layered(config, envName, BranchKey)
    && e.subdomain == Layered(config, envName, SubdomainKey)
    && e.path == Layered(config, envName, PathKey)
    && e.domain == Layered(config, envName, DomainKey)
    && e.envFile == Layered(config, envName, EnvFileKey)
    && e.gitignore == Layered(config, envName, GitignoreKey).GetOr(Bool(true))
  }

  /**
   * The merged fields of `e` are resolved: `env` and `meta` are the union of the layers with the
   * environment winning, only `env` substituted; `exclude` and `volumes` hold the app's entries
   * and then the environment's, each once, in first-occurrence order.
   */
  ghost predicate CollectionsResolved(config: ProjectConfig, envName: string, e: EnvironmentConfig) {
    var app, d := config.appDefaults, EnvData(config, envName);
    && (forall k :: Get(e.env, k) == SubstitutedOpt(Either(TableAt(d, EnvKey), TableAt(app, EnvKey), k),
                                                    PlaceholdersOf(config, envName)))
    && AllStrings(e.env)
    && (forall k :: Get(e.meta, k) == Either(TableAt(d, MetaKey), TableAt(app, MetaKey), k))
    && DedupedFrom(e.exclude, StringsAt(app, ExcludeKey) + StringsAt(d, ExcludeKey))
    && DedupedFrom(e.volumes, StringsAt(app, VolumesKey) + StringsAt(d, VolumesKey))
  }

  /** `e` is the resolution of the environment. */
  ghost predicate IsResolution(config: ProjectConfig, envName: string, e: EnvironmentConfig) {
    ScalarsResolved(config, envName, e) && CollectionsResolved(config, envName, e)
  }

  /** The merged scalars: each key from the environment when it has one, else from the defaults. */
  lemma MergedScalars(config: ProjectConfig, envName: string)
    ensures var merged := SubstitutedAll(Overlaid(Base(config), EnvData(config, envName)), PlaceholdersOf(config, envName));
      forall k | !IsMergedKey(k) :: Get(merged, k) == Layered(config, envName, k)
  {
    forall k | !IsMergedKey(k) {
      OverlaidGet(Base(config), EnvData(config, envName), k);
    }
  }

  /** Substituting strings leaves strings. */
  lemma SubstitutedStrings(d: Dict<string, Value>, p: Placeholders)
    requires AllStrings(d)
    ensures AllStrings(SubstitutedAll(d, p))
  {
    SubstitutedAllAt(d, p);
  }

  /** The scalars `resolve_environment` reads from the merged layers are resolved. */
  lemma ScalarsOf(config: ProjectConfig, envName: string, merged: Dict<string, Value>, env: Dict<string, Value>,
                  meta: Dict<string, Value>, exclude: seq<string>, volumes: seq<string>)
    requires merged == SubstitutedAll(Overlaid(Base(config), EnvData(config, envName)), PlaceholdersOf(config, envName))
    ensures ScalarsResolved(config, envName,
                            Configured(envName, DeriveAppName(config.appName, envName), merged, env, meta, exclude, volumes))
  {
    MergedScalars(config, envName);
  }

  /** The collections `resolve_environment` merges are resolved. */
  lemma CollectionsOf(config: ProjectConfig, envName: string, merged: Dict<string, Value>, env: Dict<string, Value>,
                      meta: Dict<string, Value>, exclude: seq<string>, volumes: seq<string>)
    requires var d, p := EnvData(config, envName), PlaceholdersOf(config, envName);
      && AllStrings(Merge(TableAt(config.appDefaults, EnvKey), TableAt(d, EnvKey)))
      && env == SubstitutedAll(Merge(TableAt(config.appDefaults, EnvKey), TableAt(d, EnvKey)), p)
      && meta == Merge(TableAt(config.appDefaults, MetaKey), TableAt(d, MetaKey))
      && exclude == Unique(StringsAt(config.appDefaults, ExcludeKey) + StringsAt(d, ExcludeKey))
      && volumes == Unique(StringsAt(config.appDefaults, VolumesKey) + StringsAt(d, VolumesKey))
    ensures CollectionsResolved(config, envName,
                                Configured(envName, DeriveAppName(config.appName, envName), merged, env, meta, exclude, volumes))
  {
    var d := EnvData(config, envName);
    SubstitutedStrings(Merge(TableAt(config.appDefaults, EnvKey), TableAt(d, EnvKey)), PlaceholdersOf(config, envName));
    UniqueDeduplicates(StringsAt(config.appDefaults, ExcludeKey) + StringsAt(d, ExcludeKey));
    UniqueDeduplicates(StringsAt(config.appDefaults, VolumesKey) + StringsAt(d, VolumesKey));
  }

  /** A table read that succeeds reads the table there. */
  lemma TableRead(d: Dict<string, Value>, key: string)
    requires TableOr(Get(d, key)).Ok?
    ensures TableOr(Get(d, key)).value == TableAt(d, key)
  {
  }

  /** A string-list read that succeeds reads the list there. */
  lemma StringsRead(d: Dict<string, Value>, key: string)
    requires StringsOr(Get(d, key)).Ok?
    ensures StringsOr(Get(d, key)).value == StringsAt(d, key)
  {
  }

  /**
   * `resolve_environment`: pops the merged keys out of a copy of the defaults, merges and dedupes
   * them, overlays the environment and substitutes the placeholders. An undefined environment is
   * the ValueError naming the defined ones; a value of the wrong shape is a TypeError. The project
   * is a value, so it is left as it was.
   */
  method ResolveEnvironment(config: ProjectConfig, envName: string) returns (r: Result<EnvironmentConfig>)
    ensures !HasKey(config.environments, envName) ==>
      r == Err(ValueError(NotFoundMessage(envName, Keys(config.environments))))
    ensures HasKey(config.environments, envName) ==> (r.Ok? <==> WellShaped(config, envName))
    ensures HasKey(config.environments, envName) && r.Err? ==> r.error.TypeError?
    ensures r.Ok? ==> IsResolution(config, envName, r.value)
  {
    if !HasKey(config.environments, envName) {
      return Err(ValueError(NotFoundMessage(envName, Keys(config.environments))));
    }
    var app := config.appDefaults;
    var envData := Get(config.environments, envName).value;
    assert envData == EnvData(config, envName);

    var appEnv :- TableOr(Get(app, EnvKey));
    var envEnv :- TableOr(Get(envData, EnvKey));
    TableRead(app, EnvKey);
    TableRead(envData, EnvKey);
    var mergedEnv := Merge(appEnv, envEnv);

    var appMeta :- TableOr(Get(app, MetaKey));
    var envMeta :- TableOr(Get(envData, MetaKey));
    TableRead(app, MetaKey);
    TableRead(envData, MetaKey);
    var mergedMeta := Merge(appMeta, envMeta);

    var appExclude :- StringsOr(Get(app, ExcludeKey));
    var envExclude :- StringsOr(Get(envData, ExcludeKey));
    StringsRead(app, ExcludeKey);
    StringsRead(envData, ExcludeKey);
    var mergedExclude := Deduplicated(appExclude + envExclude);

    var appVolumes :- StringsOr(Get(app, VolumesKey));
    var envVolumes :- StringsOr(Get(envData, VolumesKey));
    StringsRead(app, VolumesKey);
    StringsRead(envData, VolumesKey);
    var mergedVolumes := Deduplicated(appVolumes + envVolumes);

    var merged := Remove(Remove(Remove(Remove(app, EnvKey), MetaKey), ExcludeKey), VolumesKey);
    merged := OverlayEnvironment(merged, envData);
    var appName := DeriveAppName(config.appName, envName);
    var p := PlaceholdersOf(config, envName);
    merged := SubstituteStrings(merged, p);
    if !AllStrings(mergedEnv) {
      return Err(TypeError(Config.NotString));
    }
    mergedEnv := SubstituteStrings(mergedEnv, p);
    ScalarsOf(config, envName, merged, mergedEnv, mergedMeta, mergedExclude, mergedVolumes);
    CollectionsOf(config, envName, merged, mergedEnv, mergedMeta, mergedExclude, mergedVolumes);
    return Ok(Configured(envName, appName, merged, mergedEnv, mergedMeta, mergedExclude, mergedVolumes));
  }

  // ---------------------------------------------------------------------------------------
  // list_environments and resolve_all_environments
  // ---------------------------------------------------------------------------------------

  lemma KeysHaveKeys<V>(d: Dict<string, V>)
    ensures forall k :: k in Keys(d) <==> HasKey(d, k)
  {
    forall k ensures k in Keys(d) <==> HasKey(d, k) {
      HasKeyAt(d, k);
    }
  }

  /** `list_environments`: the defined environment names, sorted. */
  function ListEnvironments(config: ProjectConfig): (names: seq<string>)
    ensures Sorted(names) && multiset(names) == multiset(Keys(config.environments))
    ensures forall n :: n in names <==> HasKey(config.environments, n)
  {
    KeysHaveKeys(config.environments);
    Sort(Keys(config.environments))
  }

  /**
   * `resolve_all_environments`: the environments resolved in sorted order; the first one that
   * fails aborts the list with its TypeError.
   */
  method ResolveAllEnvironments(config: ProjectConfig) returns (r: Result<seq<EnvironmentConfig>>)
    ensures var names := ListEnvironments(config);
      && (r.Ok? <==> forall i | 0 <= i < |names| :: WellShaped(config, names[i]))
      && (r.Ok? ==> |r.value| == |names| && forall i | 0 <= i < |names| :: IsResolution(config, names[i], r.value[i]))
      && (r.Err? ==> r.error.TypeError?)
      && (r.Err? ==> exists i | 0 <= i < |names| ::
            !WellShaped(config, names[i]) && forall j | 0 <= j < i :: WellShaped(config, names[j]))
  {
    var names := ListEnvironments(config);
    var resolved: seq<EnvironmentConfig> := [];
    var i := 0;
    while i < |names|
      invariant 0 <= i <= |names| && |resolved| == i
      invariant forall j | 0 <= j < i :: WellShaped(config, names[j]) && IsResolution(config, names[j], resolved[j])
    {
      assert HasKey(config.environments, names[i]);
      var one := ResolveEnvironment(config, names[i]);
      if one.Err? {
        return Err(one.error);
      }
      resolved := resolved + [one.value];
      i := i + 1;
    }
    return Ok(resolved);
  }

  // ---------------------------------------------------------------------------------------
  // load_project_config
  // ---------------------------------------------------------------------------------------

  /** The file read: `path` itself when it is a file, else `path/appgarden.toml`. */
  function ProjectFilePath(path: string, files: map<string, Dict<string, Value>>): string {
    if path in files then path else path + PathSeparator + ProjectFileName
  }

  /** `environments[name] = dict(data)` for every entry from `s` on, starting from `acc`. */
  function Tabled(acc: Dict<string, Dict<string, Value>>, s: seq<(string, Value)>): Result<Dict<string, Dict<string, Value>>>
    decreases |s|
  {
    if s == [] then Ok(acc)
    else if !s[0].1.Table? then Err(TypeError(Config.NotMapping))
    else Tabled(Set(acc, s[0].0, s[0].1.entries), s[1..])
  }

  /** Every environment table is copied under its name, and a value that is no table is a TypeError. */
  lemma {:induction false} TabledGet(acc: Dict<string, Dict<string, Value>>, d: Dict<string, Value>, k: string)
    ensures Tabled(acc, d).Ok? <==> forall i | 0 <= i < |d| :: d[i].1.Table?
    ensures Tabled(acc, d).Ok? ==>
      Get(Tabled(acc, d).value, k) == if HasKey(d, k) then Some(TableAt(d, k)) else Get(acc, k)
    decreases |d|
  {
    if d != [] {
      FirstKeyUnique(d);
      assert forall i | 1 <= i < |d| :: d[i] == d[1..][i - 1];
      if d[0].1.Table? {
        TabledGet(Set(acc, d[0].0, d[0].1.entries), d[1..], k);
      }
    }
  }

  /** The shaping of the parsed document: `[app] name` required, name and slug dropped from the defaults. */
  function ProjectConfigOf(data: Dict<string, Value>): Result<ProjectConfig> {
    var app :- TableOr(Get(data, AppKey));
    var name := Get(app, NameKey);
    if name.None? || !Truthy(name.value) then Err(ValueError(NameRequiredMessage))
    else if !name.value.Str? then Err(TypeError(Config.NotString))
    else
      var slug := Get(app, SlugKey);
      if slug.Some? && !slug.value.Str? then Err(TypeError(Config.NotString))
      else
        var envs :- TableOr(Get(data, EnvironmentsKey));
        var environments :- Tabled([], envs);
        Ok(ProjectConfig(name.value.s, if slug.Some? then Some(slug.value.s) else None,
                         Remove(Remove(app, NameKey), SlugKey), environments))
  }

  /** `load_project_config`, with the local files as parsed TOML documents. */
  method LoadProjectConfig(path: string, files: map<string, Dict<string, Value>>) returns (r: Result<ProjectConfig>)
    ensures var p := ProjectFilePath(path, files);
      r == if p !in files then Err(FileNotFoundError(NoProjectFilePrefix + path)) else ProjectConfigOf(files[p])
  {
    var p := ProjectFilePath(path, files);
    if p !in files {
      return Err(FileNotFoundError(NoProjectFilePrefix + path));
    }
    var data := files[p];
    var app :- TableOr(Get(data, AppKey));
    var name := Get(app, NameKey);
    if name.None? || !Truthy(name.value) {
      return Err(ValueError(NameRequiredMessage));
    }
    if !name.value.Str? {
      return Err(TypeError(Config.NotString));
    }
    var slug := Get(app, SlugKey);
    if slug.Some? && !slug.value.Str? {
      return Err(TypeError(Config.NotString));
    }
    var envs :- TableOr(Get(data, EnvironmentsKey));
    var environments: Dict<string, Dict<string, Value>> := [];
    var i := 0;
    while i < |envs|
      invariant 0 <= i <= |envs|
      invariant Tabled(environments, envs[i..]) == Tabled([], envs)
    {
      var (envName, envData) := envs[i];
      assert envs[i..][1..] == envs[i + 1..];
      if !envData.Table? {
        return Err(TypeError(Config.NotMapping));
      }
      environments := Set(environments, envName, envData.entries);
      i := i + 1;
    }
    return Ok(ProjectConfig(name.value.s, if slug.Some? then Some(slug.value.s) else None,
                            Remove(Remove(app, NameKey), SlugKey), environments));
  }

  /** A project loads only with a non-empty `[app] name`, and a missing or empty one is the ValueError. */
  lemma LoadRequiresName(data: Dict<string, Value>)
    ensures var r := ProjectConfigOf(data);
      var name := Get(TableAt(data, AppKey), NameKey);
      && (r.Ok? ==> name.Some? && name.value.Str? && name.value.s != "" && r.value.appName == name.value.s)
      && (TableOr(Get(data, AppKey)).Ok? && (name.None? || !Truthy(name.value)) ==> r == Err(ValueError(NameRequiredMessage)))
  {
  }

  /**
   * A loaded project keeps every `[app]` key but the name and the slug as a default, and every
   * environment table under its name.
   */
  lemma LoadShapes(data: Dict<string, Value>, k: string)
    requires ProjectConfigOf(data).Ok?
    ensures var r := ProjectConfigOf(data).value;
      var app, envs := TableAt(data, AppKey), TableAt(data, EnvironmentsKey);
      && Get(r.appDefaults, k) == (if k == NameKey || k == SlugKey then None else Get(app, k))
      && (r.appSlug.Some? <==> HasKey(app, SlugKey))
      && (forall i | 0 <= i < |envs| :: envs[i].1.Table?)
      && Get(r.environments, k) == if HasKey(envs, k) then Some(TableAt(envs, k)) else None
  {
    TabledGet([], TableAt(data, EnvironmentsKey), k);
  }
}
