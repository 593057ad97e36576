/**
  The cache policy: the plugin configuration, the allow-list test
  `needCache`, and the expiry time in effect.
 */
module Policy {
  import opened Wrappers
  import opened PhpStrings

  /**
    The plugin's two settings. `allowPath` is the raw comma-separated
    allow-list ("" when unset); `cacheTime` is the time-to-live in seconds,
    None when the setting is empty.
   */
  datatype Config = Config(allowPath: string, cacheTime: Option<nat>)

  /** The expiry used when the setting is empty. */
  const DefaultExpire: nat := 86400

  /** `$config->cache_time == 0 || empty($config->cache_time)`. */
  predicate CachingDisabled(cfg: Config)
    ensures !CachingDisabled(cfg) ==> cfg.cacheTime.Some? && cfg.cacheTime.value > 0
  {
    cfg.cacheTime == None || cfg.cacheTime == Some(0)
  }

  /** `$expire`: the configured time-to-live, or the default when it is empty. */
  function Expire(cfg: Config): (e: nat)
    ensures cfg.cacheTime.Some? ==> e == cfg.cacheTime.value
    ensures cfg.cacheTime.None? ==> e == DefaultExpire
  {
    if cfg.cacheTime.None? then DefaultExpire else cfg.cacheTime.value
  }

  /** Whenever caching is on, the expiry in effect is the configured one and positive. */
  lemma ExpireIsConfigured(cfg: Config)
    requires !CachingDisabled(cfg)
    ensures Expire(cfg) == cfg.cacheTime.value && Expire(cfg) > 0
  {
  }

  /** The allow-list entries: full-width commas normalised, then split on ','. */
  function AllowList(allowPath: string): (entries: seq<string>)
    ensures |entries| >= 1
    ensures forall k :: 0 <= k < |entries| ==> ',' !in entries[k]
    ensures Join(entries) == ReplaceFullWidthCommas(allowPath)
  {
    JoinExplode(ReplaceFullWidthCommas(allowPath));
    Explode(ReplaceFullWidthCommas(allowPath))
  }

  /** The `foreach` of needCache: does some entry, tried in order, match the path? */
  function AnyMatch(path: string, entries: seq<string>): (r: bool)
    ensures r <==> exists k :: 0 <= k < |entries| && Matches(path, entries[k])
  {
    if entries == [] then false
    else if Matches(path, entries[0]) then true
    else AnyMatch(path, entries[1..])
  }

  /** needCache: is the request path covered by the allow-list? */
  function NeedCache(path: string, allowPath: string): (r: bool)
    ensures IsEmptyString(allowPath) ==> !r
    ensures r <==> !IsEmptyString(allowPath) && exists e :: e in AllowList(allowPath) && Matches(path, e)
  {
    if IsEmptyString(allowPath) then false
    else AnyMatch(path, AllowList(allowPath))
  }

  /** The outcome depends only on which entries are listed, not on their order or repetition. */
  lemma NeedCacheOrderFree(path: string, a: string, b: string)
    requires !IsEmptyString(a) && !IsEmptyString(b)
    requires forall e :: e in AllowList(a) <==> e in AllowList(b)
    ensures NeedCache(path, a) == NeedCache(path, b)
  {
  }

  /** Writing the separator as a full-width comma or as ',' makes no difference. */
  lemma {:induction false} FullWidthCommaIsSeparator(path: string, allowPath: string)
    ensures NeedCache(path, allowPath) == NeedCache(path, ReplaceFullWidthCommas(allowPath))
  {
    ReplaceIdempotent(allowPath);
  }

  /**
    With no entry equal to "" or "0", needCache is plain substring search:
    the path is cacheable iff it contains some entry (anywhere, not only as
    a prefix).
   */
  lemma NeedCacheIffSubstring(path: string, allowPath: string)
    requires forall e :: e in AllowList(allowPath) ==> e != "" && e != "0"
    ensures NeedCache(path, allowPath) <==>
              !IsEmptyString(allowPath) && exists e :: e in AllowList(allowPath) && Contains(path, e)
  {
    forall e | e in AllowList(allowPath)
      ensures Matches(path, e) <==> Contains(path, e)
    {
      MatchesIffContains(path, e);
    }
  }

  /** An allow-list of one entry admits exactly the paths containing it. */
  lemma SingleEntry(path: string, entry: string)
    requires FullWidthComma !in entry && ',' !in entry && entry != "" && entry != "0"
    ensures NeedCache(path, entry) <==> Contains(path, entry)
  {
    ReplaceNoFullWidth(entry);
    ExplodeNoComma(entry);
    MatchesIffContains(path, entry);
  }

  /**
    A path the allow-list does not reach: with the setting "/x/,0" the
    entry "0" occurs in "/archives/10", but there strstr returns "0", which
    PHP reads as false, so the path is not cacheable; in "/archives/01" it
    returns "01" and the path is cacheable.
   */
  lemma ZeroEntryQuirk(allowPath: string, tail0: string, inner0: string)
    requires allowPath == "/x/,0" && tail0 == "/archives/10" && inner0 == "/archives/01"
    ensures Contains(tail0, "0") && !NeedCache(tail0, allowPath)
    ensures Contains(inner0, "0") && NeedCache(inner0, allowPath)
  {
    SlashXZeroList(allowPath);
    AbsentCharacter(tail0, "/x/", 1);
    AbsentCharacter(inner0, "/x/", 1);
    MatchesIffContains(tail0, "/x/");
    MatchesIffContains(inner0, "/x/");
    ZeroEntryAtEnd(tail0);
    ZeroEntryInside(inner0, 10);
  }

  /** The setting "/x/,0" lists the entries "/x/" and "0". */
  lemma SlashXZeroList(allowPath: string)
    requires allowPath == "/x/,0"
    ensures AllowList(allowPath) == ["/x/", "0"]
  {
    assert FullWidthComma !in allowPath;
    ReplaceNoFullWidth(allowPath);
    assert allowPath == "/x/" + [','] + "0";
    ExplodeComma("/x/", "0");
    ExplodeNoComma("0");
  }

  /**
    An empty entry, as a trailing or doubled comma produces, makes every
    path other than "" and "0" cacheable.
   */
  lemma EmptyEntryAdmitsAll(path: string, allowPath: string)
    requires !IsEmptyString(allowPath) && "" in AllowList(allowPath)
    ensures NeedCache(path, allowPath) <== !IsEmptyString(path)
  {
    EmptyEntryMatches(path);
  }

  /** The setting "/archives/," (trailing comma) lists the empty entry besides "/archives/". */
  lemma TrailingCommaListsEmptyEntry(allowPath: string)
    requires allowPath == "/archives/,"
    ensures AllowList(allowPath) == ["/archives/", ""]
  {
    assert FullWidthComma !in allowPath;
    ReplaceNoFullWidth(allowPath);
    assert allowPath == "/archives/" + [','] + "";
    ExplodeComma("/archives/", "");
  }

  /** The default allow-list "/archives/" admits "/archives/1.html" and not "/about/". */
  lemma DefaultAllowList(allowPath: string, article: string, about: string)
    requires allowPath == "/archives/" && article == "/archives/1.html" && about == "/about/"
    ensures NeedCache(article, allowPath)
    ensures !NeedCache(about, allowPath)
  {
    assert FullWidthComma !in allowPath && ',' !in allowPath;
    SingleEntry(article, allowPath);
    assert OccursAt(article, allowPath, 0);
    SingleEntry(about, allowPath);
  }

  /** Strict freshness: an entry is fresh strictly before `mtime + expire`. */
  predicate Fresh(mtime: int, now: int, expire: int)
    ensures Fresh(mtime, now, expire) <==> now < mtime + expire
  {
    now - mtime < expire
  }
}
