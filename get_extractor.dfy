/**
 * Resolution of the extractor definition that applies to a URL
 * (`getExtractor` in src/extractors/get-extractor.js).
 *
 * Two registries are searched: the custom one (`apiExtractors`, filled at run
 * time by `addExtractor`) and the built-in one (`Extractors`). Their keys are
 * scanned custom first; a key is taken when the URL contains it and, if its
 * definition lists `includedPaths`, one of those patterns matches the URL.
 */
module ExtractorResolution {

  datatype Option<+T> = None | Some(value: T)

  type Url = string

  /** A registry key: a domain name, matched by substring containment. */
  type Domain = string

  /** The source text of a regular expression listed in `includedPaths`. */
  type Pattern = string

  /** `new RegExp(pattern).test(url)`; regular expressions are not modelled. */
  type PathMatcher = (Pattern, Url) -> bool

  /**
   * An extractor definition. `includedPaths` is `None` when the definition
   * declares no paths (JavaScript `undefined`); `Some([])` is an empty array,
   * which JavaScript treats as present. `rules` stands for the per-field
   * selector rules, which resolution never looks at.
   */
  datatype Definition = Definition(
    domain: Domain,
    includedPaths: Option<seq<Pattern>>,
    rules: map<string, string>)

  /**
   * A registry object: its own keys in enumeration order, and the
   * definition stored under each.
   */
  datatype Table = Table(keys: seq<Domain>, defs: map<Domain, Definition>)

  const EmptyTable := Table([], map[])

  /** The keys are distinct and are exactly the keys that have a definition. */
  ghost predicate WellFormed(t: Table) {
    && (forall i, j :: 0 <= i < j < |t.keys| ==> t.keys[i] != t.keys[j])
    && (forall k :: k in t.defs <==> k in t.keys)
  }

  /**
   * `table[k] = d` on a JavaScript object: an existing key keeps its place in
   * the enumeration order, a new key is enumerated last.
   */
  function Put(t: Table, k: Domain, d: Definition): (r: Table)
    requires WellFormed(t)
    ensures WellFormed(r)
    ensures r.defs == t.defs[k := d]
    ensures |t.keys| <= |r.keys| && r.keys[..|t.keys|] == t.keys
    ensures |r.keys| == if k in t.defs then |t.keys| else |t.keys| + 1
  {
    if k in t.defs then Table(t.keys, t.defs[k := d])
    else Table(t.keys + [k], t.defs[k := d])
  }

  /** `sub` occurs in `s` starting at position `i`. */
  ghost predicate OccursAt(s: string, sub: string, i: int) {
    0 <= i <= |s| - |sub| && s[i..i + |sub|] == sub
  }

  /** `s.includes(sub)`: `sub` occurs as a contiguous block of `s`. */
  function Includes(s: string, sub: string): (r: bool)
    ensures r <==> exists i :: OccursAt(s, sub, i)
    decreases |s|
  {
    if sub <= s then
      assert OccursAt(s, sub, 0);
      true
    else if |s| == 0 then
      false
    else
      var r := Includes(s[1..], sub);
      assert r <==> exists i :: OccursAt(s, sub, i) by {
        assert !OccursAt(s, sub, 0);
        forall i | OccursAt(s, sub, i) ensures OccursAt(s[1..], sub, i - 1) {
          OccursShift(s, sub, i - 1);
        }
        forall j | OccursAt(s[1..], sub, j) ensures OccursAt(s, sub, j + 1) {
          OccursShift(s, sub, j);
        }
      }
      r
  }

  lemma OccursShift(s: string, sub: string, j: nat)
    requires |s| > 0
    ensures OccursAt(s, sub, j + 1) <==> OccursAt(s[1..], sub, j)
  {
    if j + 1 <= |s| - |sub| {
      assert s[j + 1..j + 1 + |sub|] == s[1..][j..j + |sub|];
    }
  }

  /** `paths.some(path => new RegExp(path).test(url))`. */
  function AnyPathMatches(paths: seq<Pattern>, url: Url, matches: PathMatcher): (r: bool)
    ensures r <==> exists i :: 0 <= i < |paths| && matches(paths[i], url)
  {
    if |paths| == 0 then false
    else if matches(paths[0], url) then true
    else
      var r := AnyPathMatches(paths[1..], url, matches);
      assert forall i :: 1 <= i < |paths| ==> paths[i] == paths[1..][i - 1];
      r
  }

  /** Every key of the scanned list names a definition in one of the registries. */
  predicate Registered(custom: Table, builtIn: Table, keys: seq<Domain>) {
    forall k :: k in keys ==> k in custom.defs || k in builtIn.defs
  }

  /**
   * The definition whose `includedPaths` gate a key:
   * `apiExtractors[domain] || Extractors[domain]`.
   */
  function GatingDefinition(custom: Table, builtIn: Table, k: Domain): (r: Definition)
    requires k in custom.defs || k in builtIn.defs
    ensures k in custom.defs ==> r == custom.defs[k]
    ensures k !in custom.defs ==> r == builtIn.defs[k]
  {
    if k in custom.defs then custom.defs[k] else builtIn.defs[k]
  }

  /** The predicate passed to `find`. */
  function Accepts(custom: Table, builtIn: Table, url: Url, matches: PathMatcher, k: Domain): (r: bool)
    requires k in custom.defs || k in builtIn.defs
    ensures var paths := GatingDefinition(custom, builtIn, k).includedPaths;
            r <==> Includes(url, k) && (paths.None? || exists i :: 0 <= i < |paths.value| && matches(paths.value[i], url))
  {
    && Includes(url, k)
    && var d := GatingDefinition(custom, builtIn, k);
       (d.includedPaths.None? || AnyPathMatches(d.includedPaths.value, url, matches))
  }

  /** Position `i` holds the first key of `keys` that the predicate accepts. */
  ghost predicate FirstAccepted(custom: Table, builtIn: Table, url: Url, matches: PathMatcher, keys: seq<Domain>, i: int)
    requires Registered(custom, builtIn, keys)
  {
    && 0 <= i < |keys|
    && Accepts(custom, builtIn, url, matches, keys[i])
    && forall j :: 0 <= j < i ==> !Accepts(custom, builtIn, url, matches, keys[j])
  }

  /** `keys.find(predicate)`: the first accepted key, if any. */
  function Scan(custom: Table, builtIn: Table, url: Url, matches: PathMatcher, keys: seq<Domain>): (r: Option<Domain>)
    requires Registered(custom, builtIn, keys)
    ensures r.None? <==> forall i :: 0 <= i < |keys| ==> !Accepts(custom, builtIn, url, matches, keys[i])
    ensures r.Some? ==> exists i :: FirstAccepted(custom, builtIn, url, matches, keys, i) && keys[i] == r.value
  {
    if |keys| == 0 then None
    else if Accepts(custom, builtIn, url, matches, keys[0]) then
      assert FirstAccepted(custom, builtIn, url, matches, keys, 0);
      Some(keys[0])
    else
      var r := Scan(custom, builtIn, url, matches, keys[1..]);
      assert forall i :: 1 <= i < |keys| ==> keys[i] == keys[1..][i - 1];
      assert forall i :: FirstAccepted(custom, builtIn, url, matches, keys[1..], i) ==>
        FirstAccepted(custom, builtIn, url, matches, keys, i + 1);
      r
  }

  /** The keys in the order `getExtractor` tries them: custom, then built-in. */
  function CandidateKeys(custom: Table, builtIn: Table): seq<Domain> {
    custom.keys + builtIn.keys
  }

  /** `Extractors[key] || apiExtractors[key]`: the built-in definition is preferred. */
  function Lookup(custom: Table, builtIn: Table, k: Domain): (r: Option<Definition>)
    ensures r.None? <==> k !in builtIn.defs && k !in custom.defs
    ensures k in builtIn.defs ==> r == Some(builtIn.defs[k])
    ensures k !in builtIn.defs && k in custom.defs ==> r == Some(custom.defs[k])
  {
    if k in builtIn.defs then Some(builtIn.defs[k])
    else if k in custom.defs then Some(custom.defs[k])
    else None
  }

  /**
   * The resolution as it behaves when nothing matches: `find` yields
   * `undefined`, and indexing an object with `undefined` reads the property
   * named "undefined".
   */
  const UndefinedKey := "undefined"

  function GetExtractorAsWritten(custom: Table, builtIn: Table, url: Url, matches: PathMatcher): (r: Option<Definition>)
    requires WellFormed(custom) && WellFormed(builtIn)
    ensures Registered(custom, builtIn, CandidateKeys(custom, builtIn))
    ensures var key := Scan(custom, builtIn, url, matches, CandidateKeys(custom, builtIn));
            && (key.Some? ==> r == GetExtractor(custom, builtIn, url, matches))
            && (key.None? ==> r == Lookup(custom, builtIn, UndefinedKey))
  {
    var key := Scan(custom, builtIn, url, matches, CandidateKeys(custom, builtIn));
    Lookup(custom, builtIn, if key.Some? then key.value else UndefinedKey)
  }

  /**
   * `getExtractor(url)` with a total miss answered by `undefined`; the rest
   * of the model uses this resolution.
   */
  function GetExtractor(custom: Table, builtIn: Table, url: Url, matches: PathMatcher): (r: Option<Definition>)
    requires WellFormed(custom) && WellFormed(builtIn)
    ensures Registered(custom, builtIn, CandidateKeys(custom, builtIn))
    ensures r.None? <==>
      forall k :: k in CandidateKeys(custom, builtIn) ==> !Accepts(custom, builtIn, url, matches, k)
    ensures r.Some? ==>
      exists i :: && FirstAccepted(custom, builtIn, url, matches, CandidateKeys(custom, builtIn), i)
                  && var k := CandidateKeys(custom, builtIn)[i];
                     r.value == if k in builtIn.defs then builtIn.defs[k] else custom.defs[k]
  {
    var keys := CandidateKeys(custom, builtIn);
    match Scan(custom, builtIn, url, matches, keys)
    case None => None
    case Some(k) =>
      assert k in custom.defs || k in builtIn.defs;
      Lookup(custom, builtIn, k)
  }
}
