/**
 * Properties of extractor resolution: precedence of custom keys, first-match
 * order, substring domain matching, `includedPaths` gating, the handling of a
 * key present in both registries, and the total-miss lookup of the code as
 * written.
 */
module ResolutionProperties {
  import opened ExtractorResolution

  /** With no candidate key contained in the URL, nothing is resolved. */
  lemma NoDomainMatchNoExtractor(custom: Table, builtIn: Table, url: Url, matches: PathMatcher)
    requires WellFormed(custom) && WellFormed(builtIn)
    requires forall k :: k in CandidateKeys(custom, builtIn) ==> !Includes(url, k)
    ensures GetExtractor(custom, builtIn, url, matches) == None
  {
  }

  /**
   * Domain matching is containment anywhere in the URL, so a key also
   * matches a host that merely ends with it.
   */
  lemma DomainMatchIsSubstring()
    ensures Includes("https://notexample.com/x", "example.com")
    ensures Includes("https://www.example.com/x", "example.com")
  {
    assert OccursAt("https://notexample.com/x", "example.com", 11);
    assert OccursAt("https://www.example.com/x", "example.com", 12);
  }

  /**
   * A definition without `includedPaths` is accepted on its domain alone:
   * the answer does not depend on the path matcher at all.
   */
  lemma UnpathedDefinitionIgnoresPaths(custom: Table, builtIn: Table, url: Url, m1: PathMatcher, m2: PathMatcher, k: Domain)
    requires k in custom.defs || k in builtIn.defs
    requires GatingDefinition(custom, builtIn, k).includedPaths.None?
    ensures Accepts(custom, builtIn, url, m1, k) <==> Includes(url, k)
    ensures Accepts(custom, builtIn, url, m1, k) == Accepts(custom, builtIn, url, m2, k)
  {
  }

  /**
   * A domain-matching definition that lists paths is accepted exactly when
   * one of its patterns matches the URL.
   */
  lemma PathGate(custom: Table, builtIn: Table, url: Url, matches: PathMatcher, k: Domain)
    requires k in custom.defs || k in builtIn.defs
    requires Includes(url, k)
    requires GatingDefinition(custom, builtIn, k).includedPaths.Some?
    ensures var paths := GatingDefinition(custom, builtIn, k).includedPaths.value;
            Accepts(custom, builtIn, url, matches, k) <==>
            exists i :: 0 <= i < |paths| && matches(paths[i], url)
  {
  }

  /** An empty `includedPaths` array is present, and so rejects every URL. */
  lemma EmptyPathListRejects(custom: Table, builtIn: Table, url: Url, matches: PathMatcher, k: Domain)
    requires k in custom.defs || k in builtIn.defs
    requires GatingDefinition(custom, builtIn, k).includedPaths == Some([])
    ensures !Accepts(custom, builtIn, url, matches, k)
  {
  }

  /**
   * A rejected key (no domain match, or a domain match whose paths all fail)
   * does not end the scan: the result is the one the remaining keys give.
   */
  lemma {:induction false} RejectedKeyIsSkipped(custom: Table, builtIn: Table, url: Url, matches: PathMatcher,
                                                prefix: seq<Domain>, k: Domain, suffix: seq<Domain>)
    requires Registered(custom, builtIn, prefix + [k] + suffix)
    requires !Accepts(custom, builtIn, url, matches, k)
    ensures Registered(custom, builtIn, prefix + suffix)
    ensures Scan(custom, builtIn, url, matches, prefix + [k] + suffix) == Scan(custom, builtIn, url, matches, prefix + suffix)
  {
    assert forall x :: x in prefix + suffix ==> x in prefix + [k] + suffix;
    if |prefix| == 0 {
      assert prefix + [k] + suffix == [k] + suffix;
      assert ([k] + suffix)[1..] == suffix;
      assert prefix + suffix == suffix;
    } else {
      assert (prefix + [k] + suffix)[0] == prefix[0];
      assert (prefix + [k] + suffix)[1..] == prefix[1..] + [k] + suffix;
      assert (prefix + suffix)[0] == prefix[0];
      assert (prefix + suffix)[1..] == prefix[1..] + suffix;
      RejectedKeyIsSkipped(custom, builtIn, url, matches, prefix[1..], k, suffix);
    }
  }

  /**
   * Scanning a concatenation: every key of the first list is tried before any
   * key of the second, so an accepted custom key always beats every
   * built-in key.
   */
  lemma {:induction false} ScanConcat(custom: Table, builtIn: Table, url: Url, matches: PathMatcher,
                                      a: seq<Domain>, b: seq<Domain>)
    requires Registered(custom, builtIn, a) && Registered(custom, builtIn, b)
    ensures Registered(custom, builtIn, a + b)
    ensures Scan(custom, builtIn, url, matches, a + b) ==
            if Scan(custom, builtIn, url, matches, a).Some? then Scan(custom, builtIn, url, matches, a)
            else Scan(custom, builtIn, url, matches, b)
  {
    if |a| == 0 {
      assert a + b == b;
    } else {
      assert (a + b)[0] == a[0];
      assert (a + b)[1..] == a[1..] + b;
      ScanConcat(custom, builtIn, url, matches, a[1..], b);
    }
  }

  /** Custom keys first: the key chosen from the custom registry, if any, wins. */
  lemma CustomKeysFirst(custom: Table, builtIn: Table, url: Url, matches: PathMatcher)
    requires WellFormed(custom) && WellFormed(builtIn)
    ensures Registered(custom, builtIn, custom.keys) && Registered(custom, builtIn, builtIn.keys)
    ensures var c := Scan(custom, builtIn, url, matches, custom.keys);
            Scan(custom, builtIn, url, matches, CandidateKeys(custom, builtIn)) ==
            if c.Some? then c else Scan(custom, builtIn, url, matches, builtIn.keys)
  {
    ScanConcat(custom, builtIn, url, matches, custom.keys, builtIn.keys);
  }

  /**
   * A key present in both registries is gated by the custom definition's
   * `includedPaths`, but when it is chosen the built-in definition is
   * returned.
   */
  lemma SharedKeyQuirk(custom: Table, builtIn: Table, url: Url, matches: PathMatcher, k: Domain)
    requires WellFormed(custom) && WellFormed(builtIn)
    requires k in custom.defs && k in builtIn.defs
    ensures var paths := custom.defs[k].includedPaths;
            Accepts(custom, builtIn, url, matches, k) <==>
            Includes(url, k) && (paths.None? || exists i :: 0 <= i < |paths.value| && matches(paths.value[i], url))
    ensures Scan(custom, builtIn, url, matches, CandidateKeys(custom, builtIn)) == Some(k) ==>
            GetExtractor(custom, builtIn, url, matches) == Some(builtIn.defs[k])
  {
  }

  /**
   * An instance: the built-in definition lists an empty `includedPaths` and
   * on its own resolves nothing; shadowed by an unrestricted custom
   * definition under the same key, it is the built-in one that comes back.
   */
  lemma SharedKeyExample(k: Domain, url: Url, matches: PathMatcher, c: Definition, b: Definition)
    requires Includes(url, k)
    requires c.includedPaths.None? && b.includedPaths == Some([])
    ensures WellFormed(Table([k], map[k := c])) && WellFormed(Table([k], map[k := b]))
    ensures GetExtractor(EmptyTable, Table([k], map[k := b]), url, matches) == None
    ensures GetExtractor(Table([k], map[k := c]), Table([k], map[k := b]), url, matches) == Some(b)
  {
    var custom, builtIn := Table([k], map[k := c]), Table([k], map[k := b]);
    assert Accepts(custom, builtIn, url, matches, k);
    assert CandidateKeys(custom, builtIn)[0] == k;
    assert !Accepts(EmptyTable, builtIn, url, matches, k);
    assert CandidateKeys(EmptyTable, builtIn) == [k];
  }

  /**
   * After registering an unrestricted definition whose domain the URL
   * contains, into a custom registry none of whose keys the URL contains,
   * resolution picks the new key: it returns the new definition, unless a
   * built-in definition sits under the same key.
   */
  lemma RegisteredExtractorResolves(custom: Table, builtIn: Table, url: Url, matches: PathMatcher, d: Definition)
    requires WellFormed(custom) && WellFormed(builtIn)
    requires Includes(url, d.domain) && d.includedPaths.None?
    requires forall k :: k in custom.keys ==> !Includes(url, k)
    ensures var updated := Put(custom, d.domain, d);
            GetExtractor(updated, builtIn, url, matches) ==
            Some(if d.domain in builtIn.defs then builtIn.defs[d.domain] else d)
  {
    var updated := Put(custom, d.domain, d);
    assert d.domain !in custom.defs;
    assert updated.keys == custom.keys + [d.domain];
    assert Registered(updated, builtIn, custom.keys);
    assert Registered(updated, builtIn, [d.domain]);
    ScanConcat(updated, builtIn, url, matches, custom.keys, [d.domain]);
    assert Scan(updated, builtIn, url, matches, custom.keys) == None;
    assert Accepts(updated, builtIn, url, matches, d.domain);
    assert Scan(updated, builtIn, url, matches, updated.keys) == Some(d.domain);
    CustomKeysFirst(updated, builtIn, url, matches);
  }

  /**
   * The code as written answers a total miss with the definition stored under
   * the key "undefined", when a registry holds one; the corrected resolution
   * answers with nothing.
   */
  lemma UndefinedKeyLeak(url: Url, matches: PathMatcher, d: Definition)
    requires !Includes(url, UndefinedKey)
    ensures WellFormed(Table([UndefinedKey], map[UndefinedKey := d]))
    ensures GetExtractorAsWritten(EmptyTable, Table([UndefinedKey], map[UndefinedKey := d]), url, matches) == Some(d)
    ensures GetExtractor(EmptyTable, Table([UndefinedKey], map[UndefinedKey := d]), url, matches) == None
  {
    var builtIn := Table([UndefinedKey], map[UndefinedKey := d]);
    assert CandidateKeys(EmptyTable, builtIn) == [UndefinedKey];
    assert !Accepts(EmptyTable, builtIn, url, matches, UndefinedKey);
  }

  /**
   * The two resolutions part ways exactly on a total miss over registries of
   * which one holds the key "undefined"; without such a key they agree.
   */
  lemma AsWrittenDiffersOnlyOnUndefinedKey(custom: Table, builtIn: Table, url: Url, matches: PathMatcher)
    requires WellFormed(custom) && WellFormed(builtIn)
    ensures GetExtractorAsWritten(custom, builtIn, url, matches) != GetExtractor(custom, builtIn, url, matches) <==>
            && Scan(custom, builtIn, url, matches, CandidateKeys(custom, builtIn)).None?
            && (UndefinedKey in custom.defs || UndefinedKey in builtIn.defs)
    ensures UndefinedKey !in custom.defs && UndefinedKey !in builtIn.defs ==>
            GetExtractorAsWritten(custom, builtIn, url, matches) == GetExtractor(custom, builtIn, url, matches)
  {
  }
}
