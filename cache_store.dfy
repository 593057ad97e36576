/**
  The cache store and the two request hooks: `Start`, run before the page
  is generated, and `Ends`, run after it. The file system is a map from
  file path to entry plus the set of existing directories; the current
  time, the login state, the configuration and the captured output are
  parameters.
 */
module CacheStore {
  import opened Wrappers
  import opened PhpStrings
  import opened Policy
  import opened Keys

  /** A cache file: its bytes and its modification time in seconds. */
  datatype Entry = Entry(content: string, mtime: int)

  /** What `Start` does with a request. */
  datatype StartResult =
    | Bypass             // returned early: no cache access, output not captured
    | Serve(body: string) // echoed the cached file and ended the request
    | Capture            // opened the output buffer: the page is generated and recorded

  /** The comment appended to every stored page; `stamp` is the formatted write time. */
  function Marker(stamp: string): (m: string)
    ensures |m| == |stamp| + 19 && m[16..16 + |stamp|] == stamp
  {
    "<!--TpHtmlCache " + stamp + "-->"
  }

  /** The early returns of `Start`: anonymous caller, caching on, path allowed. */
  predicate StartEngages(uri: string, loggedIn: bool, cfg: Config)
    ensures StartEngages(uri, loggedIn, cfg) ==>
              !loggedIn && !IsEmptyString(cfg.allowPath) && cfg.cacheTime.Some? && cfg.cacheTime.value > 0
  {
    !loggedIn && !CachingDisabled(cfg) && NeedCache(uri, cfg.allowPath)
  }

  /**
    The early returns of `Ends`, which also returns when the allow-list is
    empty. That extra check is redundant: both hooks engage on the same
    requests.
   */
  predicate EndsEngages(uri: string, loggedIn: bool, cfg: Config)
    ensures EndsEngages(uri, loggedIn, cfg) == StartEngages(uri, loggedIn, cfg)
  {
    !IsEmptyString(cfg.allowPath) && !loggedIn && !CachingDisabled(cfg) && NeedCache(uri, cfg.allowPath)
  }

  /** The result of `Start` on the files as they are. */
  function StartOutcome(files: map<string, Entry>, root: string, md5: string -> Key,
                        uri: string, loggedIn: bool, cfg: Config, now: int): (r: StartResult)
    ensures r.Bypass? <==> !StartEngages(uri, loggedIn, cfg)
    ensures r.Serve? ==> EntryPath(root, md5(uri)) in files && r.body == files[EntryPath(root, md5(uri))].content
  {
    if !StartEngages(uri, loggedIn, cfg) then Bypass
    else
      var path := EntryPath(root, md5(uri));
      if path in files && Fresh(files[path].mtime, now, Expire(cfg)) then Serve(files[path].content)
      else Capture
  }

  /** The directories after `Start`: a missing shard directory is created, with the cache directory. */
  function StartDirs(dirs: set<string>, root: string, md5: string -> Key,
                     uri: string, loggedIn: bool, cfg: Config): (d: set<string>)
    ensures dirs <= d && d - dirs <= {CacheDir(root), ShardDir(root, md5(uri))}
    ensures StartEngages(uri, loggedIn, cfg) ==> ShardDir(root, md5(uri)) in d
  {
    if !StartEngages(uri, loggedIn, cfg) || ShardDir(root, md5(uri)) in dirs then dirs
    else dirs + {CacheDir(root), ShardDir(root, md5(uri))}
  }

  /**
    The files after `Ends`: the captured output plus the marker, stamped
    with the current time, replaces the entry. Writing into a shard
    directory that does not exist fails and changes nothing.
   */
  function EndsFiles(files: map<string, Entry>, dirs: set<string>, root: string, md5: string -> Key,
                     uri: string, loggedIn: bool, cfg: Config, now: int,
                     captured: string, stamp: string): (f: map<string, Entry>)
    ensures forall q :: q != EntryPath(root, md5(uri)) ==> (q in f <==> q in files)
    ensures forall q :: q in files && q != EntryPath(root, md5(uri)) ==> f[q] == files[q]
    ensures f != files ==> EndsEngages(uri, loggedIn, cfg) && ShardDir(root, md5(uri)) in dirs
  {
    if !EndsEngages(uri, loggedIn, cfg) || ShardDir(root, md5(uri)) !in dirs then files
    else files[EntryPath(root, md5(uri)) := Entry(captured + Marker(stamp), now)]
  }

  /**
    `Start` serves iff the request engages and the entry exists with
    `now - mtime` strictly below the configured time-to-live; what it
    serves is the stored content, marker included. It bypasses exactly
    when the request does not engage.
   */
  lemma StartServesIffFresh(files: map<string, Entry>, root: string, md5: string -> Key,
                            uri: string, loggedIn: bool, cfg: Config, now: int)
    ensures var r := StartOutcome(files, root, md5, uri, loggedIn, cfg, now);
            var path := EntryPath(root, md5(uri));
            && (r.Bypass? <==> !StartEngages(uri, loggedIn, cfg))
            && (r.Serve? <==> StartEngages(uri, loggedIn, cfg) && path in files
                              && now - files[path].mtime < cfg.cacheTime.value)
            && (r.Serve? ==> r.body == files[path].content)
  {
    if StartEngages(uri, loggedIn, cfg) {
      ExpireIsConfigured(cfg);
    }
  }

  /**
    A logged-in caller, a disabled cache or a path outside the allow-list
    leaves the store alone: `Start` bypasses without creating a directory
    and `Ends` writes nothing.
   */
  lemma InertWhenNotEngaged(files: map<string, Entry>, dirs: set<string>, root: string, md5: string -> Key,
                            uri: string, loggedIn: bool, cfg: Config, now: int, later: int,
                            captured: string, stamp: string)
    requires loggedIn || CachingDisabled(cfg) || !NeedCache(uri, cfg.allowPath)
    ensures StartOutcome(files, root, md5, uri, loggedIn, cfg, now) == Bypass
    ensures StartDirs(dirs, root, md5, uri, loggedIn, cfg) == dirs
    ensures EndsFiles(files, dirs, root, md5, uri, loggedIn, cfg, later, captured, stamp) == files
  {
  }

  /**
    Creating the shard directory is idempotent, adds nothing but the shard
    and cache directories, and leaves the shard directory in place
    whenever the request engages.
   */
  lemma StartDirsIdempotent(dirs: set<string>, root: string, md5: string -> Key,
                            uri: string, loggedIn: bool, cfg: Config)
    ensures var d := StartDirs(dirs, root, md5, uri, loggedIn, cfg);
            && StartDirs(d, root, md5, uri, loggedIn, cfg) == d
            && dirs <= d && d - dirs <= {CacheDir(root), ShardDir(root, md5(uri))}
            && (StartEngages(uri, loggedIn, cfg) ==> ShardDir(root, md5(uri)) in d)
            && (ShardDir(root, md5(uri)) in dirs ==> d == dirs)
  {
  }

  /** On time-to-live `ttl`, an entry written at `t` is served up to `t + ttl - 1` and is stale from `t + ttl` on. */
  lemma TtlBoundary(files: map<string, Entry>, root: string, md5: string -> Key,
                    uri: string, cfg: Config, t: int)
    requires StartEngages(uri, false, cfg)
    requires EntryPath(root, md5(uri)) in files && files[EntryPath(root, md5(uri))].mtime == t
    ensures StartOutcome(files, root, md5, uri, false, cfg, t + cfg.cacheTime.value - 1)
            == Serve(files[EntryPath(root, md5(uri))].content)
    ensures forall later :: later >= t + cfg.cacheTime.value ==>
              StartOutcome(files, root, md5, uri, false, cfg, later) == Capture
  {
    ExpireIsConfigured(cfg);
  }

  /**
    `Ends` on an engaged request whose shard directory exists stores the
    captured output followed by the marker, stamped `now`, at the key's
    path, and changes no other file.
   */
  lemma EndsStoresMarkedOutput(files: map<string, Entry>, dirs: set<string>, root: string, md5: string -> Key,
                               uri: string, cfg: Config, now: int, captured: string, stamp: string)
    requires StartEngages(uri, false, cfg) && ShardDir(root, md5(uri)) in dirs
    ensures var f := EndsFiles(files, dirs, root, md5, uri, false, cfg, now, captured, stamp);
            var path := EntryPath(root, md5(uri));
            && f.Keys == files.Keys + {path}
            && f[path] == Entry(captured + Marker(stamp), now)
            && (forall q :: q in files && q != path ==> f[q] == files[q])
  {
  }

  /** A write for one URI does not change what `Start` does for a URI with another key. */
  lemma EndsKeepsOtherKeys(files: map<string, Entry>, dirs: set<string>, root: string,
                           md5: string -> Key, uri: string, loggedIn: bool, cfg: Config,
                           now: int, captured: string, stamp: string,
                           other: string, otherLoggedIn: bool, otherCfg: Config, later: int)
    requires md5(uri) != md5(other)
    ensures var f := EndsFiles(files, dirs, root, md5, uri, loggedIn, cfg, now, captured, stamp);
            StartOutcome(f, root, md5, other, otherLoggedIn, otherCfg, later)
            == StartOutcome(files, root, md5, other, otherLoggedIn, otherCfg, later)
  {
    EntryPathInjective(root, md5(uri), md5(other));
  }

  /**
    The write/read round trip: after `Ends` stores a page for an engaged
    request at time `t`, `Start` at any `t'` with `t' - t` below the
    time-to-live serves exactly the captured output and the marker.
   */
  lemma StoreThenServe(files: map<string, Entry>, dirs: set<string>, root: string,
                       md5: string -> Key, uri: string, cfg: Config, t: int, t': int,
                       captured: string, stamp: string)
    requires StartEngages(uri, false, cfg) && ShardDir(root, md5(uri)) in dirs
    requires t' - t < cfg.cacheTime.value
    ensures var f := EndsFiles(files, dirs, root, md5, uri, false, cfg, t, captured, stamp);
            StartOutcome(f, root, md5, uri, false, cfg, t') == Serve(captured + Marker(stamp))
  {
    ExpireIsConfigured(cfg);
  }

  /**
    The whole protocol from any store: a request that `Start` captures
    creates the shard directory, so the following `Ends` writes, and a
    request within the time-to-live is then served that page.
   */
  lemma CaptureThenServe(files: map<string, Entry>, dirs: set<string>, root: string,
                         md5: string -> Key, uri: string, cfg: Config,
                         t0: int, t: int, t': int, captured: string, stamp: string)
    requires StartOutcome(files, root, md5, uri, false, cfg, t0) == Capture
    requires t' - t < Expire(cfg)
    ensures var d := StartDirs(dirs, root, md5, uri, false, cfg);
            var f := EndsFiles(files, d, root, md5, uri, false, cfg, t, captured, stamp);
            StartOutcome(f, root, md5, uri, false, cfg, t') == Serve(captured + Marker(stamp))
  {
    StartDirsIdempotent(dirs, root, md5, uri, false, cfg);
    var d := StartDirs(dirs, root, md5, uri, false, cfg);
    StoreThenServe(files, d, root, md5, uri, cfg, t, t', captured, stamp);
  }

  /**
    With the default settings (allow-list "/archives/", one day), a first
    anonymous request for "/archives/1.html" is captured, the same request
    a second later is served the stored page, and "/about/" is bypassed.
   */
  lemma ArchivesScenario(files: map<string, Entry>, dirs: set<string>, root: string,
                         md5: string -> Key, allowPath: string, cfg: Config, article: string, about: string,
                         t: int, stamp: string)
    requires allowPath == "/archives/" && cfg == Config(allowPath, Some(86400))
    requires article == "/archives/1.html" && about == "/about/"
    requires EntryPath(root, md5(article)) !in files
    ensures var d := StartDirs(dirs, root, md5, article, false, cfg);
            var f := EndsFiles(files, d, root, md5, article, false, cfg, t, "Hello", stamp);
            && StartOutcome(files, root, md5, article, false, cfg, t) == Capture
            && StartOutcome(f, root, md5, article, false, cfg, t + 1) == Serve("Hello" + Marker(stamp))
            && StartOutcome(f, root, md5, about, false, cfg, t + 1) == Bypass
  {
    DefaultAllowList(allowPath, article, about);
    CaptureThenServe(files, dirs, root, md5, article, cfg, t, t, t + 1, "Hello", stamp);
  }

  /**
    The store as the two hooks see it: the plugin directory, the md5
    function, the cache files and the existing directories.
   */
  class Store {
    const root: string
    const md5: string -> Key
    var files: map<string, Entry>
    var dirs: set<string>

    constructor (root: string, md5: string -> Key, files: map<string, Entry>, dirs: set<string>)
      ensures this.root == root && this.md5 == md5
      ensures this.files == files && this.dirs == dirs
    {
      this.root := root;
      this.md5 := md5;
      this.files := files;
      this.dirs := dirs;
    }

    /** The hook run before the page is generated. It never changes a file. */
    method Start(uri: string, loggedIn: bool, cfg: Config, now: int) returns (r: StartResult)
      modifies this`dirs
      ensures r == StartOutcome(files, root, md5, uri, loggedIn, cfg, now)
      ensures dirs == StartDirs(old(dirs), root, md5, uri, loggedIn, cfg)
    {
      if loggedIn {
        return Bypass;
      }
      if CachingDisabled(cfg) {
        return Bypass;
      }
      if !NeedCache(uri, cfg.allowPath) {
        return Bypass;
      }
      var expire := Expire(cfg);
      var key := md5(uri);
      var file := EntryPath(root, key);
      var dir := ShardDir(root, key);
      if dir !in dirs {
        dirs := dirs + {CacheDir(root), dir};
      }
      if file in files {
        var fileTime := files[file].mtime;
        if now - fileTime < expire {
          return Serve(files[file].content);
        }
      }
      return Capture;
    }

    /** The hook run after the page is generated, with the captured output. */
    method Ends(uri: string, loggedIn: bool, cfg: Config, now: int, captured: string, stamp: string)
      modifies this`files
      ensures files == EndsFiles(old(files), dirs, root, md5, uri, loggedIn, cfg, now, captured, stamp)
    {
      if IsEmptyString(cfg.allowPath) {
        return;
      }
      if loggedIn {
        return;
      }
      if CachingDisabled(cfg) {
        return;
      }
      if !NeedCache(uri, cfg.allowPath) {
        return;
      }
      var key := md5(uri);
      var file := EntryPath(root, key);
      var html := captured + Marker(stamp);
      if ShardDir(root, key) in dirs {
        files := files[file := Entry(html, now)];
      }
    }

    /**
      One request as the host runs it: `Start` at `startTime`; unless it
      served the cached page, the page is generated (`rendered`) and
      `Ends` runs at `endTime`. Returns what the client receives.
     */
    method HandleRequest(uri: string, loggedIn: bool, cfg: Config, startTime: int, endTime: int,
                         rendered: string, stamp: string) returns (page: string)
      modifies this
      ensures var r := StartOutcome(old(files), root, md5, uri, loggedIn, cfg, startTime);
              && page == (if r.Serve? then r.body else rendered)
              && files == (if r == Capture
                           then old(files)[EntryPath(root, md5(uri)) := Entry(rendered + Marker(stamp), endTime)]
                           else old(files))
              && dirs == StartDirs(old(dirs), root, md5, uri, loggedIn, cfg)
    {
      var r := Start(uri, loggedIn, cfg, startTime);
      if r.Serve? {
        return r.body;
      }
      Ends(uri, loggedIn, cfg, endTime, rendered, stamp);
      page := rendered;
    }
  }

  /**
    Two anonymous requests for the same URI, the second within the
    time-to-live of the first's write: the first is generated and stored,
    the second receives that page with the marker, without generation.
   */
  method RepeatRequest(store: Store, uri: string, cfg: Config, t0: int, t: int, t': int,
                       rendered: string, rerendered: string, stamp: string, stamp': string)
      returns (first: string, second: string)
    requires StartEngages(uri, false, cfg)
    requires EntryPath(store.root, store.md5(uri)) !in store.files
    requires t' - t < Expire(cfg)
    modifies store
    ensures first == rendered
    ensures second == rendered + Marker(stamp)
  {
    first := store.HandleRequest(uri, false, cfg, t0, t, rendered, stamp);
    second := store.HandleRequest(uri, false, cfg, t', t', rerendered, stamp');
  }
}
