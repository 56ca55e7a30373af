/** The response records of `src/modman/models.py` that carry logic: search hits
    and pages with their slug and colour constraints, and versions with their
    type rank, ordering, primary file, pre-release flag, equality and hash. */
module Models {
  import opened Wrappers

  // ---------------------------------------------------------------- search records

  /** `SearchResultProject`, reduced to the fields that are constrained or used. */
  datatype SearchHit = SearchHit(slug: string, title: string, projectId: string, color: Option<int>)

  /** `SearchResult`: one page of hits. */
  datatype SearchResult = SearchResult(hits: seq<SearchHit>, offset: int, limit: int, totalHits: int)

  /** A character of the slug class `[\w!@$()`.+,"\-']`, with `\w` read as ASCII
      letters, digits and `_`. */
  predicate SlugChar(c: char) {
    ('a' <= c <= 'z') || ('A' <= c <= 'Z') || ('0' <= c <= '9') || c == '_'
    || c in {'!', '@', '$', '(', ')', '`', '.', '+', ',', '"', '-', '\''}
  }

  /** The slug rule as intended: 3 to 64 characters, all of the slug class. */
  predicate ValidSlug(s: string) {
    3 <= |s| <= 64 && forall i :: 0 <= i < |s| ==> SlugChar(s[i])
  }

  /** The slug rule as written, `^[...]{3,64}$` searched with Python's `re`: `$`
      also matches just before one final newline, so a valid slug followed by
      `"\n"` is accepted too. */
  predicate SlugPatternAsWritten(s: string) {
    ValidSlug(s) || (|s| > 0 && s[|s| - 1] == '\n' && ValidSlug(s[..|s| - 1]))
  }

  /** `SearchResultProject.color`: absent, or an RGB value in 0..0xFFFFFF. */
  predicate ColorInRange(color: Option<int>) {
    color.None? || 0 <= color.value <= 0xFF_FFFF
  }

  /** A hit passing the field constraints as written. */
  predicate WellFormedHit(h: SearchHit) {
    SlugPatternAsWritten(h.slug) && ColorInRange(h.color)
  }

  /** A hit passing the field constraints with the intended slug rule. */
  predicate IntendedHit(h: SearchHit) {
    ValidSlug(h.slug) && ColorInRange(h.color)
  }

  /** `SearchResult.model_validate` on an already-decoded page: it succeeds,
      unchanged, exactly when every hit satisfies the field constraints as
      written, that is, each slug matches the pattern (a final newline
      included) and each colour is absent or in range. */
  function ValidateSearchResult(raw: SearchResult): (r: Option<SearchResult>)
    ensures r.Some? <==> forall i :: 0 <= i < |raw.hits| ==>
      SlugPatternAsWritten(raw.hits[i].slug) && ColorInRange(raw.hits[i].color)
    ensures r.Some? ==> r.value == raw
  {
    if forall i :: 0 <= i < |raw.hits| ==> WellFormedHit(raw.hits[i]) then Some(raw) else None
  }

  /** The validation as intended: every slug of 3 to 64 characters of the slug
      class, without a trailing newline. */
  function ValidateSearchResultIntended(raw: SearchResult): (r: Option<SearchResult>)
    ensures r.Some? <==> forall i :: 0 <= i < |raw.hits| ==>
      ValidSlug(raw.hits[i].slug) && ColorInRange(raw.hits[i].color)
    ensures r.Some? ==> r.value == raw
  {
    if forall i :: 0 <= i < |raw.hits| ==> IntendedHit(raw.hits[i]) then Some(raw) else None
  }

  /** Every page the intended rule accepts is accepted as written, and the two
      agree on every page none of whose slugs ends in a newline. */
  lemma IntendedValidationStricter(raw: SearchResult)
    ensures ValidateSearchResultIntended(raw).Some? ==> ValidateSearchResult(raw).Some?
    ensures (forall i :: 0 <= i < |raw.hits| ==> |raw.hits[i].slug| == 0 || raw.hits[i].slug[|raw.hits[i].slug| - 1] != '\n') ==>
      ValidateSearchResult(raw) == ValidateSearchResultIntended(raw)
  {
    forall i | 0 <= i < |raw.hits| && (|raw.hits[i].slug| == 0 || raw.hits[i].slug[|raw.hits[i].slug| - 1] != '\n')
      ensures SlugPatternAsWritten(raw.hits[i].slug) <==> ValidSlug(raw.hits[i].slug)
    {
      SlugRulesAgreeWithoutNewline(raw.hits[i].slug);
    }
  }

  /** A page whose one hit has the slug `"abc\n"` passes validation as written
      and fails the intended rule. */
  lemma NewlineSlugPageAccepted()
    ensures ValidateSearchResult(SearchResult([SearchHit("abc\n", "", "", None)], 0, 20, 1)).Some?
    ensures ValidateSearchResultIntended(SearchResult([SearchHit("abc\n", "", "", None)], 0, 20, 1)).None?
  {
    var raw := SearchResult([SearchHit("abc\n", "", "", None)], 0, 20, 1);
    SlugTrailingNewlineAccepted();
    assert raw.hits[0].slug == "abc\n";
    assert !ValidSlug(raw.hits[0].slug);
  }

  /** The slug class excludes `/`, so a slug can never contain a path separator. */
  lemma SlugHasNoSlash(s: string)
    requires ValidSlug(s)
    ensures forall i :: 0 <= i < |s| ==> s[i] != '/'
  {
  }

  /** The pattern as written lets a trailing newline through; the intended rule does not. */
  lemma SlugTrailingNewlineAccepted()
    ensures SlugPatternAsWritten("abc\n")
    ensures !ValidSlug("abc\n")
  {
    assert "abc\n"[..3] == "abc";
    assert "abc\n"[3] == '\n';
  }

  /** The two rules differ only on a single trailing newline. */
  lemma SlugRulesAgreeWithoutNewline(s: string)
    requires |s| == 0 || s[|s| - 1] != '\n'
    ensures SlugPatternAsWritten(s) <==> ValidSlug(s)
  {
  }

  // ---------------------------------------------------------------- versions

  /** `VersionType`, declared RELEASE, BETA, ALPHA as in the source. */
  datatype VersionType = Release | Beta | Alpha

  /** The enum member's value. */
  function Value(t: VersionType): string {
    match t
    case Release => "release"
    case Beta => "beta"
    case Alpha => "alpha"
  }

  /** `VersionType.__int__`: the index of the value in `["alpha", "beta", "release"]`. */
  function Rank(t: VersionType): (n: nat)
    ensures n < 3 && ["alpha", "beta", "release"][n] == Value(t)
  {
    match t
    case Alpha => 0
    case Beta => 1
    case Release => 2
  }

  /** The rank orders alpha < beta < release and tells the types apart. */
  lemma RankOrder(s: VersionType, t: VersionType)
    ensures Rank(Alpha) < Rank(Beta) < Rank(Release)
    ensures Rank(s) == Rank(t) <==> s == t
  {
  }

  datatype Hashes = Hashes(sha1: string, sha512: string)

  datatype VersionFile = VersionFile(hashes: Hashes, url: string, filename: string, primary: bool, size: nat)

  /** `Version`, reduced to the fields its logic reads. `datePublished` is in seconds. */
  datatype Version = Version(
    id: string,
    projectId: string,
    versionNumber: string,
    versionType: VersionType,
    datePublished: int,
    files: seq<VersionFile>)

  /** The error raised by `primary_file` on an empty file list (`IndexError`). */
  datatype ModelError = NoFiles

  /** The index of the first file flagged primary, if any. */
  function FirstPrimary(files: seq<VersionFile>): (r: Option<nat>)
    ensures r.Some? ==> r.value < |files| && files[r.value].primary
                        && forall j :: 0 <= j < r.value ==> !files[j].primary
    ensures r.None? ==> forall j :: 0 <= j < |files| ==> !files[j].primary
  {
    if |files| == 0 then None
    else if files[0].primary then Some(0)
    else match FirstPrimary(files[1..])
      case None => None
      case Some(k) => Some(k + 1)
  }

  /** `primary_file`: the first file flagged primary, else the first file; an
      empty file list raises. */
  function PrimaryFile(v: Version): (r: Result<VersionFile, ModelError>)
    ensures |v.files| == 0 <==> r == Failure(NoFiles)
    ensures r.Success? ==> r.value in v.files
    ensures FirstPrimary(v.files).Some? ==> r == Success(v.files[FirstPrimary(v.files).value])
    ensures (exists i :: 0 <= i < |v.files| && v.files[i].primary) ==> r.Success? && r.value.primary
    ensures (forall i :: 0 <= i < |v.files| ==> !v.files[i].primary) && |v.files| > 0 ==> r == Success(v.files[0])
  {
    match FirstPrimary(v.files)
    case Some(k) => Success(v.files[k])
    case None => if |v.files| == 0 then Failure(NoFiles) else Success(v.files[0])
  }

  /** When exactly one file is flagged, it is the primary file. */
  lemma PrimaryFileUnique(v: Version, k: nat)
    requires k < |v.files| && v.files[k].primary
    requires forall j :: 0 <= j < |v.files| && j != k ==> !v.files[j].primary
    ensures PrimaryFile(v) == Success(v.files[k])
  {
    var r := FirstPrimary(v.files);
    assert r.Some?;
  }

  /** `is_pre_release`. */
  predicate IsPreRelease(v: Version) {
    v.versionType != Release
  }

  /** A pre-release is exactly an alpha or a beta, that is, a rank below release. */
  lemma PreReleaseByRank(v: Version)
    ensures IsPreRelease(v) <==> Rank(v.versionType) < Rank(Release)
    ensures IsPreRelease(v) <==> v.versionType in {Alpha, Beta}
  {
  }

  // ---------------------------------------------------------------- ordering

  /** The comparison key `(version_type, date_published)`, with the type read
      through its rank. */
  function Key(v: Version): (int, int) { (Rank(v.versionType), v.datePublished) }

  // Python's tuple operators: find the first position where the two differ and
  // compare there; with no difference only `<=` and `>=` hold.
  predicate TupleLt(a: (int, int), b: (int, int)) { a.0 < b.0 || (a.0 == b.0 && a.1 < b.1) }
  predicate TupleLe(a: (int, int), b: (int, int)) { a.0 < b.0 || (a.0 == b.0 && a.1 <= b.1) }
  predicate TupleGt(a: (int, int), b: (int, int)) { a.0 > b.0 || (a.0 == b.0 && a.1 > b.1) }
  predicate TupleGe(a: (int, int), b: (int, int)) { a.0 > b.0 || (a.0 == b.0 && a.1 >= b.1) }

  /** `__lt__`, `__le__`, `__gt__`, `__ge__` with the type compared by rank. */
  predicate Lt(a: Version, b: Version) { TupleLt(Key(a), Key(b)) }
  predicate Le(a: Version, b: Version) { TupleLe(Key(a), Key(b)) }
  predicate Gt(a: Version, b: Version) { TupleGt(Key(a), Key(b)) }
  predicate Ge(a: Version, b: Version) { TupleGe(Key(a), Key(b)) }

  /** The type dominates: a higher-ranked type is newer whatever the dates, so a
      release published before a beta is still greater than it. */
  lemma TypeDominates(a: Version, b: Version)
    requires Rank(a.versionType) > Rank(b.versionType)
    ensures Gt(a, b) && Lt(b, a) && !Le(a, b)
  {
  }

  /** Within one type, the later publication date is the greater version. */
  lemma SameTypeByDate(a: Version, b: Version)
    requires a.versionType == b.versionType
    ensures Lt(a, b) <==> a.datePublished < b.datePublished
  {
  }

  /** `<` and `>` are converse, as are `<=` and `>=`; `<=` is `<` or equal keys. */
  lemma OrderConverse(a: Version, b: Version)
    ensures Gt(a, b) <==> Lt(b, a)
    ensures Ge(a, b) <==> Le(b, a)
    ensures Le(a, b) <==> Lt(a, b) || Key(a) == Key(b)
    ensures Ge(a, b) <==> Gt(a, b) || Key(a) == Key(b)
  {
  }

  /** `<` is transitive and irreflexive. */
  lemma OrderTransitive(a: Version, b: Version, c: Version)
    ensures Lt(a, b) && Lt(b, c) ==> Lt(a, c)
    ensures Le(a, b) && Le(b, c) ==> Le(a, c)
    ensures !Lt(a, a)
  {
  }

  /** On keys the order is total: exactly one of `<`, equal keys, `>` holds. */
  lemma OrderTotal(a: Version, b: Version)
    ensures Lt(a, b) || Key(a) == Key(b) || Gt(a, b)
    ensures !(Lt(a, b) && Gt(a, b))
    ensures Key(a) == Key(b) ==> !Lt(a, b) && !Gt(a, b)
  {
  }

  /** Every pre-release sorts before every release. */
  lemma PreReleaseBeforeRelease(a: Version, b: Version)
    requires IsPreRelease(a) && !IsPreRelease(b)
    ensures Lt(a, b)
  {
  }

  /** Python's behaviour as written: tuple comparison first tests the enum
      members for equality and then orders the first differing pair with `<`,
      which `enum.Enum` does not define, so versions of different types raise. */
  datatype CompareError = EnumNotOrderable   // TypeError

  function LtAsWritten(a: Version, b: Version): (r: Result<bool, CompareError>)
    ensures a.versionType == b.versionType ==> r == Success(Lt(a, b))
    ensures a.versionType != b.versionType ==> r.Failure?
  {
    if a.versionType == b.versionType then Success(a.datePublished < b.datePublished)
    else Failure(EnumNotOrderable)
  }

  /** A release and a later beta: as written the comparison raises, while the
      rank order the docstring describes says the release is greater. */
  lemma CompareAcrossTypesRaises(release: Version, beta: Version)
    requires release.versionType == Release && beta.versionType == Beta
    requires release.datePublished < beta.datePublished
    ensures LtAsWritten(beta, release) == Failure(EnumNotOrderable)
    ensures Lt(beta, release)
  {
  }

  // ---------------------------------------------------------------- identity

  /** `__eq__`: same `id`. */
  predicate SameVersion(a: Version, b: Version) { a.id == b.id }

  /** `__hash__`: `hash(self.id)`, with Python's string hash as the parameter. */
  function HashOf(v: Version, strHash: string -> int): int { strHash(v.id) }

  /** Equality is an equivalence, and equal versions hash alike whatever else differs. */
  lemma EqualityAndHash(a: Version, b: Version, c: Version, strHash: string -> int)
    ensures SameVersion(a, a)
    ensures SameVersion(a, b) ==> SameVersion(b, a)
    ensures SameVersion(a, b) && SameVersion(b, c) ==> SameVersion(a, c)
    ensures SameVersion(a, b) ==> HashOf(a, strHash) == HashOf(b, strHash)
  {
  }

  /** Equality ignores the ordering key: two records of one version may differ in
      type and date and still be equal, and then one is `<` the other. */
  lemma EqualityIgnoresKey(a: Version)
    ensures SameVersion(a, a.(datePublished := a.datePublished + 1))
    ensures Lt(a, a.(datePublished := a.datePublished + 1))
  {
  }
}
