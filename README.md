# TpHtmlCache page cache, modelled in Dafny

TpHtmlCache is a Typecho plugin that stores the rendered HTML of public
pages on disk and replays it to later anonymous visitors. This project
models its decision engine and cache store, all of which live in
`Plugin.php`:

- `needCache` (`Policy.NeedCache`): the allow-list setting has its
  full-width commas `，` replaced by `,` and is split on `,`. A request
  path is cacheable iff some entry is found in it by `strstr` and the
  result is truthy in PHP's sense. For ordinary entries this is
  substring search, not prefix matching. An empty (`""` or `"0"`)
  allow-list caches nothing. A trailing or doubled comma, as in
  `"/archives/,"`, yields the entry `""`, which makes every path other
  than `""` and `"0"` cacheable (`Policy.EmptyEntryAdmitsAll`).
- Key and layout (`Keys`): the key is `md5(REQUEST_URI)`, 32 lower-case
  hex digits. The shard is its first two digits. The entry file is
  `<plugin dir>/cache/<shard>/<key>.html`.
- The `Start` hook runs before a page is generated. It bypasses when the
  visitor is logged in, when the time-to-live is 0 or empty, or when the
  path is not allowed. Otherwise it creates the shard directory if it is
  missing. If the entry exists and `now - mtime < expire` (strict), it
  serves the file verbatim and ends the request. Otherwise it captures
  the output.
- The `Ends` hook runs after the page is generated. It makes the same
  checks, then overwrites the entry with the captured output followed by
  `<!--TpHtmlCache <stamp>-->`.

The file system is a map from path to `Entry(content, mtime)` plus a set
of existing directories, held by the class `CacheStore.Store`. `Start`
and `Ends` are methods on it. Each is specified by a pure function of the
old state (`StartOutcome`, `StartDirs`, `EndsFiles`), and the lemmas in
`cache_store.dfy` state the protocol's properties over those functions:
bypass rules, strict freshness, idempotent directory creation,
write-then-read round trip and isolation between keys. The current time,
the login state, the configuration, the request URI, the captured output
and the formatted date are parameters. md5 is a function value
`string -> Key` fixed for the lifetime of a store. Only the shape of its
result (32 lower-case hex digits) is known.

Files: `wrappers.dfy` (Option), `php_strings.dfy` (the PHP string
built-ins: `empty`, `str_replace`, `explode`/`implode`, `strstr` and
truthiness), `policy.dfy` (configuration, `needCache`, expiry),
`keys.dfy` (key, shard and paths), `cache_store.dfy` (the store and the
hooks).

Behaviours of the code worth knowing:
- It overwrites the entry directly with `file_put_contents`.
- The 86400-second default of line 149 can never take effect, because
  line 145 has already returned when the setting is empty
  (`Policy.ExpireIsConfigured`).
- With strict `<`, an entry written at `T` is stale from `T + ttl` on
  (`CacheStore.TtlBoundary`).
- An allow-list entry `"0"` does not match a path whose first `0` is its
  last character, because `strstr` then returns `"0"`, which PHP reads as
  false. With the setting `"/x/,0"`, `/archives/10` is not cacheable and
  `/archives/01` is (`Policy.ZeroEntryQuirk`). A setting of just `"0"`
  never gets that far: `empty()` rejects it first.

## Model

| member | source | states |
|---|---|---|
| `PhpStrings.IsEmptyString` | Plugin.php:199 | PHP's `empty()` on a setting, also used at line 175; an empty setting has at most one character and no separator |
| `PhpStrings.ReplaceFullWidthCommas` | Plugin.php:201 | every `，` becomes `,`; every other character and the length are kept; no `，` remains |
| `PhpStrings.Explode` | Plugin.php:201 | `explode(',', s)` yields at least one piece and no piece contains `,` |
| `PhpStrings.JoinExplode` | Plugin.php:201 | joining the pieces with `,` gives back the split string |
| `PhpStrings.ExplodeJoin` | Plugin.php:201 | splitting comma-free pieces joined with `,` gives back those pieces |
| `PhpStrings.StrStr` | Plugin.php:203 | `strstr` is false iff the needle does not occur; otherwise it is the suffix from the first occurrence |
| `PhpStrings.Truthy` | Plugin.php:203 | a truthy `strstr` result is a string of at least one character |
| `PhpStrings.Matches` | Plugin.php:203 | the test `if (strstr($path, $paths))`; a match implies the entry occurs in the path |
| `PhpStrings.MatchesIffContains` | Plugin.php:203 | for entries other than `""` and `"0"`, the truthiness test holds iff the entry is a substring of the path |
| `PhpStrings.ZeroEntryAtEnd` | Plugin.php:203 | when the path's only `0` is its last character, entry `"0"` occurs but the test is false |
| `PhpStrings.ZeroEntryInside` | Plugin.php:203 | when the path's first `0` is not its last character, entry `"0"` matches |
| `PhpStrings.EmptyEntryMatches` | Plugin.php:203 | an empty entry matches every path except `""` and `"0"` |
| `Policy.CachingDisabled` | Plugin.php:145 | the test "`cache_time` is 0 or empty", also made at line 179; when it is false the time-to-live is present and positive |
| `Policy.Expire` | Plugin.php:149 | `$expire` is the configured time-to-live when present and 86400 when empty |
| `Policy.Fresh` | Plugin.php:158 | `time() - $file_time < $expire`: an entry is fresh strictly before `mtime + expire` |
| `Policy.ExpireIsConfigured` | Plugin.php:145-149 | whenever caching is on, the expiry in effect is the configured time-to-live and is positive; the default is unreachable |
| `Policy.AllowList` | Plugin.php:201 | the entries are the normalised setting split on `,`: at least one, comma-free, and they rejoin to the normalised setting |
| `Policy.AnyMatch` | Plugin.php:202-208 | the early-return loop is true iff some entry matches the path |
| `Policy.NeedCache` | Plugin.php:196-209 | false for an empty allow-list; otherwise true iff some allow-list entry matches the path |
| `Policy.NeedCacheOrderFree` | Plugin.php:202-206 | for settings other than `""` and `"0"`, the result depends only on which entries are listed, not on their order or repetition |
| `Policy.FullWidthCommaIsSeparator` | Plugin.php:199-201 | writing separators as `，` or `,` gives the same result |
| `Policy.NeedCacheIffSubstring` | Plugin.php:199-208 | with no entry `""` or `"0"`, a path is cacheable iff the list is non-empty and contains an entry that is a substring of the path |
| `Policy.SingleEntry` | Plugin.php:199-208 | a one-entry allow-list admits exactly the paths that contain the entry |
| `Policy.ZeroEntryQuirk` | Plugin.php:199-208 | with the setting `"/x/,0"`, `0` occurs in `/archives/10` but it is not cacheable, while `/archives/01` is |
| `Policy.EmptyEntryAdmitsAll` | Plugin.php:199-208 | a non-empty setting that lists the entry `""` admits every path other than `""` and `"0"` |
| `Policy.TrailingCommaListsEmptyEntry` | Plugin.php:201 | the setting `"/archives/,"` lists the entries `/archives/` and `""` |
| `Policy.DefaultAllowList` | Plugin.php:104 | the default allow-list `/archives/` admits `/archives/1.html` and not `/about/` |
| `Keys.Shard` | Plugin.php:150 | the shard is two hex digits and a prefix of the key |
| `Keys.CacheDir` | Plugin.php:151-152 | the cache directory extends the plugin directory by `/cache/` and ends in `/` |
| `Keys.ShardDir` | Plugin.php:152 | the shard directory lies under the cache directory, three characters deeper |
| `Keys.EntryPath` | Plugin.php:151 | the entry path lies under the shard directory and is 40 characters longer than the cache directory |
| `Keys.KeyOfEntryPath` | Plugin.php:151 | a key read back from a path has that path as its entry path |
| `Keys.EntryPathRoundTrip` | Plugin.php:150-151 | every key's entry path reads back as that key |
| `Keys.EntryPathInjective` | Plugin.php:151 | distinct keys have distinct entry files |
| `Keys.EntryPathConfined` | Plugin.php:150-152 | below the cache directory the path has exactly one `/` (after the shard) and one `.` (before `html`), so there is no `..` |
| `CacheStore.Marker` | Plugin.php:185 | the appended comment is 19 characters longer than the stamp and holds it verbatim after `<!--TpHtmlCache ` |
| `CacheStore.StartEngages` | Plugin.php:131-147 | a request passes `Start`'s early returns only if the visitor is anonymous, the allow-list is not empty and the time-to-live is positive |
| `CacheStore.EndsEngages` | Plugin.php:175-181 | the early returns of `Ends`, including its extra `empty()` check, let through exactly the requests `Start` lets through |
| `CacheStore.StartOutcome` | Plugin.php:127-164 | `Start`'s result: it bypasses iff the request does not engage, and what it serves is the stored content of the key's entry |
| `CacheStore.StartDirs` | Plugin.php:153-155 | `Start` adds at most the cache and shard directories, and the shard directory exists afterwards whenever the request engages |
| `CacheStore.EndsFiles` | Plugin.php:172-187 | `Ends` leaves every other path as it was and changes the store only for an engaged request whose shard directory exists: writing into a missing shard directory changes nothing |
| `CacheStore.StartServesIffFresh` | Plugin.php:156-163 | `Start` serves iff the request engages and the entry exists with `now - mtime` strictly below the configured time-to-live; it serves the stored bytes verbatim; it bypasses iff the request does not engage |
| `CacheStore.InertWhenNotEngaged` | Plugin.php:131-147 | logged in, caching disabled or path not allowed: `Start` bypasses and creates no directory, `Ends` writes nothing |
| `CacheStore.StartDirsIdempotent` | Plugin.php:153-155 | shard creation is idempotent and adds only the cache and shard directories; the shard exists afterwards whenever the request engages; an existing shard means no change |
| `CacheStore.TtlBoundary` | Plugin.php:156-161 | an entry written at `t` is served at `t + ttl - 1` and is stale at every time from `t + ttl` on |
| `CacheStore.EndsStoresMarkedOutput` | Plugin.php:183-186 | `Ends` puts captured output plus marker at the key's path with mtime `now`, overwriting it, and leaves every other file as it was |
| `CacheStore.EndsKeepsOtherKeys` | Plugin.php:183-186 | a write for one URI never changes what `Start` does for a URI with a different key |
| `CacheStore.StoreThenServe` | Plugin.php:156-186 | after `Ends` writes at `t`, `Start` at `t'` with `t' - t < ttl` serves exactly the captured output plus the marker |
| `CacheStore.CaptureThenServe` | Plugin.php:127-186 | a request that `Start` captures leaves its shard directory in place, so `Ends` writes and a later request within the time-to-live is served the page |
| `CacheStore.ArchivesScenario` | Plugin.php:104-106 | with the default settings: `/archives/1.html` is captured, then served as `Hello` plus marker a second later; `/about/` is bypassed |
| `CacheStore.Store.Start` | Plugin.php:127-164 | the result and the new directory set are those of `StartOutcome` and `StartDirs`; files are not changed, so a stale entry stays in place |
| `CacheStore.Store.Ends` | Plugin.php:172-187 | the new files are those of `EndsFiles`; directories are not changed |
| `CacheStore.Store.HandleRequest` | Plugin.php:60-61 | with `Start` on begin and `Ends` on end: the client gets the cached page or the generated one, and only a captured request writes its page |
| `CacheStore.RepeatRequest` | Plugin.php:127-187 | two anonymous requests within the time-to-live: the first gets the generated page, the second that page plus the marker |

## Left out

- `recursiveDelete`, `activate` and `deactivate` (Plugin.php:31-93) are install and uninstall plumbing, not cache logic. Only the hook wiring of lines 60-61 is reflected, in `HandleRequest`.
- `config` and `personalConfig` (Plugin.php:102-119) are the admin form. Only their defaults appear, in the scenario lemmas.
- The advisory `echo` messages shown to logged-in users (Plugin.php:132-139) are not modelled. Only the early return is.
- The md5 algorithm is not modelled. The store holds an arbitrary function from URI to 32 lower-case hex digits, so hash collisions are possible. `EndsKeepsOtherKeys` therefore assumes distinct keys, not distinct URIs.
- `date("Y-m-d h:i:s")` is an opaque `stamp` parameter. `time()`, the login state, `$_SERVER["REQUEST_URI"]` and the plugin options are parameters.
- Output buffering and `exit()` are not modelled as such. `Start` returns `Serve` or `Capture`, and the captured output is a parameter of `Ends`.
- File permissions (mode 0775), unwritable directories and failing `mkdir` are not modelled. The only write failure modelled is writing into a missing shard directory, which leaves the files unchanged.
- `file_exists($dir)` is modelled as membership in the directory set, and `filemtime` as never failing on an existing file.
- Concurrent requests and atomic replacement are not modelled. Each hook is one atomic step on the store.
- `Policy.CachingDisabled` does not model PHP's loose comparison of a non-numeric `cache_time` string with 0. The time-to-live is a natural number or absent.
- `PhpStrings.StrStr` follows PHP 8, where an empty needle occurs at index 0. Under PHP 7 an empty entry never matches.
- Strings are sequences of characters, not UTF-8 bytes. Replacing the three-byte sequence of `，` is modelled as replacing that one character.
