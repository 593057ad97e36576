/**
  The PHP string built-ins the cache policy relies on, stated over
  strings of characters: `empty()` on a string, `str_replace` of the
  full-width comma, `explode(',', …)` with its inverse `implode`, and
  `strstr` together with the truthiness test PHP applies to its result.
 */
module PhpStrings {
  import opened Wrappers

  /** The full-width comma U+FF0C that the allow-list accepts as a separator. */
  const FullWidthComma: char := '\U{FF0C}'

  /** PHP's `empty()` on a string value: true for "" and for "0". */
  predicate IsEmptyString(s: string)
    ensures IsEmptyString(s) ==> |s| <= 1 && ',' !in s && FullWidthComma !in s
  {
    s == "" || s == "0"
  }

  /** `str_replace('，', ',', s)`: every full-width comma becomes ','. */
  function ReplaceFullWidthCommas(s: string): (r: string)
    ensures |r| == |s|
    ensures forall i :: 0 <= i < |s| ==> r[i] == (if s[i] == FullWidthComma then ',' else s[i])
    ensures FullWidthComma !in r
  {
    if s == [] then []
    else [if s[0] == FullWidthComma then ',' else s[0]] + ReplaceFullWidthCommas(s[1..])
  }

  /** A string without full-width commas is left as it is. */
  lemma ReplaceNoFullWidth(s: string)
    requires FullWidthComma !in s
    ensures ReplaceFullWidthCommas(s) == s
  {
    var r := ReplaceFullWidthCommas(s);
    assert forall i :: 0 <= i < |s| ==> r[i] == s[i];
  }

  lemma {:induction false} ReplaceIdempotent(s: string)
    ensures ReplaceFullWidthCommas(ReplaceFullWidthCommas(s)) == ReplaceFullWidthCommas(s)
  {
    var r := ReplaceFullWidthCommas(s);
    var rr := ReplaceFullWidthCommas(r);
    assert |rr| == |r|;
    forall i | 0 <= i < |r| ensures rr[i] == r[i] {
      assert r[i] != FullWidthComma;
    }
  }

  /** `explode(',', s)`: the pieces of `s` between commas, in order. */
  function Explode(s: string): (parts: seq<string>)
    ensures |parts| >= 1
    ensures forall k :: 0 <= k < |parts| ==> ',' !in parts[k]
    decreases |s|
  {
    if s == [] then [""]
    else
      var rest := Explode(s[1..]);
      if s[0] == ',' then [""] + rest
      else [[s[0]] + rest[0]] + rest[1..]
  }

  /** `implode(',', parts)`: the pieces joined with commas. */
  function Join(parts: seq<string>): string
  {
    if |parts| == 0 then ""
    else if |parts| == 1 then parts[0]
    else parts[0] + "," + Join(parts[1..])
  }

  lemma JoinPrepend(c: char, a: string, ps: seq<string>)
    ensures Join([[c] + a] + ps) == [c] + Join([a] + ps)
  {
    if ps != [] {
      assert ([[c] + a] + ps)[1..] == ps;
      assert ([a] + ps)[1..] == ps;
    }
  }

  /** Splitting and re-joining gives back the original string. */
  lemma {:induction false} JoinExplode(s: string)
    ensures Join(Explode(s)) == s
    decreases |s|
  {
    if s != [] {
      var rest := Explode(s[1..]);
      JoinExplode(s[1..]);
      if s[0] == ',' {
        assert Explode(s) == [""] + rest;
        assert ([""] + rest)[1..] == rest;
        assert s == [','] + s[1..];
      } else {
        assert rest == [rest[0]] + rest[1..];
        JoinPrepend(s[0], rest[0], rest[1..]);
        assert s == [s[0]] + s[1..];
      }
    }
  }

  lemma {:induction false} ExplodeNoComma(a: string)
    requires ',' !in a
    ensures Explode(a) == [a]
    decreases |a|
  {
    if a != [] {
      assert ',' !in a[1..];
      ExplodeNoComma(a[1..]);
      assert [a[0]] + a[1..] == a;
    }
  }

  lemma {:induction false} ExplodeComma(a: string, b: string)
    requires ',' !in a
    ensures Explode(a + [','] + b) == [a] + Explode(b)
    decreases |a|
  {
    if a == [] {
      assert a + [','] + b == [','] + b;
      assert ([','] + b)[1..] == b;
    } else {
      assert (a + [','] + b)[1..] == a[1..] + [','] + b;
      assert ',' !in a[1..];
      ExplodeComma(a[1..], b);
      assert [a[0]] + a[1..] == a;
    }
  }

  /** Joining comma-free pieces and splitting again gives back the pieces. */
  lemma {:induction false} ExplodeJoin(parts: seq<string>)
    requires |parts| >= 1
    requires forall k :: 0 <= k < |parts| ==> ',' !in parts[k]
    ensures Explode(Join(parts)) == parts
    decreases |parts|
  {
    if |parts| == 1 {
      ExplodeNoComma(parts[0]);
    } else {
      ExplodeJoin(parts[1..]);
      ExplodeComma(parts[0], Join(parts[1..]));
      assert parts[0] + "," + Join(parts[1..]) == parts[0] + [','] + Join(parts[1..]);
      assert [parts[0]] + parts[1..] == parts;
    }
  }

  /** `n` occurs in `h` starting at index `i`. */
  predicate OccursAt(h: string, n: string, i: nat)
  {
    i + |n| <= |h| && h[i..i + |n|] == n
  }

  /** `n` is a substring of `h`. */
  predicate Contains(h: string, n: string)
  {
    exists i: nat :: i <= |h| && OccursAt(h, n, i)
  }

  /** `i` is the first index at which `n` occurs in `h`. */
  predicate FirstOccurrence(h: string, n: string, i: nat)
  {
    OccursAt(h, n, i) && forall j: nat :: j < i ==> !OccursAt(h, n, j)
  }

  /** The first occurrence of `n` in `h` at or after index `from`. */
  function FindFrom(h: string, n: string, from: nat): (r: Option<nat>)
    requires from <= |h|
    ensures r.Some? ==> from <= r.value && OccursAt(h, n, r.value)
    ensures r.Some? ==> forall j: nat :: from <= j < r.value ==> !OccursAt(h, n, j)
    ensures r.None? ==> forall j: nat :: from <= j ==> !OccursAt(h, n, j)
    decreases |h| - from
  {
    if OccursAt(h, n, from) then Some(from)
    else if from == |h| then None
    else FindFrom(h, n, from + 1)
  }

  /**
    `strstr(h, n)`: the suffix of `h` that starts at the first occurrence
    of `n`, or None (PHP's `false`). An empty needle occurs at index 0,
    as it does from PHP 8 on.
   */
  function StrStr(h: string, n: string): (r: Option<string>)
    ensures r.None? <==> !Contains(h, n)
    ensures r.Some? ==> exists i: nat :: FirstOccurrence(h, n, i) && i <= |h| && r.value == h[i..]
  {
    match FindFrom(h, n, 0)
    case Some(i) => Some(h[i..])
    case None => None
  }

  /** PHP's truthiness of a `string|false` value: false, "" and "0" are false. */
  predicate Truthy(v: Option<string>)
    ensures Truthy(v) ==> v.Some? && |v.value| >= 1
  {
    v.Some? && v.value != "" && v.value != "0"
  }

  /** The test `if (strstr($path, $entry))` of the allow-list loop. */
  predicate Matches(path: string, entry: string)
    ensures Matches(path, entry) ==> Contains(path, entry)
  {
    Truthy(StrStr(path, entry))
  }

  /** For an entry other than "" and "0" the test is exactly "is a substring". */
  lemma MatchesIffContains(path: string, entry: string)
    requires entry != "" && entry != "0"
    ensures Matches(path, entry) <==> Contains(path, entry)
  {
    var r := StrStr(path, entry);
    if r.Some? {
      var i: nat :| FirstOccurrence(path, entry, i) && i <= |path| && r.value == path[i..];
      assert r.value[..|entry|] == entry;
      if |entry| == 1 {
        assert r.value[0] == entry[0];
      }
    }
  }

  /**
    The quirk of the truthiness test: when the only '0' of the path is its
    last character, strstr returns "0", which PHP reads as false, so the
    entry "0" does not match although it occurs in the path.
   */
  lemma ZeroEntryAtEnd(path: string)
    requires |path| >= 1 && path[|path| - 1] == '0'
    requires forall j :: 0 <= j < |path| - 1 ==> path[j] != '0'
    ensures Contains(path, "0")
    ensures !Matches(path, "0")
  {
    var last := |path| - 1;
    assert OccursAt(path, "0", last);
    var r := StrStr(path, "0");
    var i: nat :| FirstOccurrence(path, "0", i) && i <= |path| && r.value == path[i..];
    assert path[i..i + 1][0] == path[i];
    assert r.value == "0";
  }

  /** An entry with a character the path lacks does not occur in it. */
  lemma AbsentCharacter(path: string, entry: string, k: nat)
    requires k < |entry| && entry[k] !in path
    ensures !Contains(path, entry)
  {
    forall i: nat | i + |entry| <= |path| ensures !OccursAt(path, entry, i) {
      assert path[i..i + |entry|][k] == path[i + k];
    }
  }

  /** When the first '0' of the path is not its last character, the entry "0" matches. */
  lemma ZeroEntryInside(path: string, k: nat)
    requires k + 1 < |path| && path[k] == '0'
    requires forall j :: 0 <= j < k ==> path[j] != '0'
    ensures Contains(path, "0") && Matches(path, "0")
  {
    assert OccursAt(path, "0", k);
    var r := StrStr(path, "0");
    var i: nat :| FirstOccurrence(path, "0", i) && i <= |path| && r.value == path[i..];
    assert path[i..i + 1][0] == path[i];
    assert i == k;
  }

  /** An empty entry matches every path except "" and "0". */
  lemma EmptyEntryMatches(path: string)
    ensures Matches(path, "") <==> !IsEmptyString(path)
  {
    assert OccursAt(path, "", 0);
    var r := StrStr(path, "");
    var i: nat :| FirstOccurrence(path, "", i) && i <= |path| && r.value == path[i..];
    assert i == 0;
  }
}
