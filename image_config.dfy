/**
 * The upload constants and the image-URL policy (app/routes/api.upload/const.ts).
 * The `IMAGE_CDN_URL` environment value is passed in as `cdn`; an unset
 * variable and an empty one are both falsy in the source, so both are `""` here.
 */
module ImageConfig {
  import opened Wrappers
  import opened Text

  /** 5 MiB: the largest declared file size the upload accepts. */
  const MAX_FILE_SIZE: nat := 5 * 1024 * 1024

  /** The declared MIME types the upload accepts, in this order. */
  const ALLOWED_TYPES: seq<string> := ["image/jpeg", "image/png", "image/gif"]

  /** The path under which the application serves stored images. */
  const API_PATH: string := "/api/images/"

  lemma ConstantsValues()
    ensures MAX_FILE_SIZE == 5242880
    ensures |ALLOWED_TYPES| == 3
    ensures forall t :: t in ALLOWED_TYPES <==> t == "image/jpeg" || t == "image/png" || t == "image/gif"
  {
  }

  /** `getImageUrl(id)`: the CDN prefix when one is configured, the API path otherwise. */
  function GetImageUrl(cdn: string, id: nat): string
  {
    if cdn != "" then cdn + NatToString(id) else API_PATH + NatToString(id)
  }

  /** The regular expression `/\/api\/images\/(\d+)/` matches at position `j`. */
  predicate ApiMatchAt(url: string, j: nat)
  {
    OccursAt(url, API_PATH, j) && j + |API_PATH| < |url| && IsDigit(url[j + |API_PATH|])
  }

  /** The leftmost position at or after `i` where the API-path expression matches. */
  function FirstApiMatch(url: string, i: nat): (r: Option<nat>)
    decreases |url| - i
    ensures r.Some? ==> i <= r.value && ApiMatchAt(url, r.value)
    ensures r.Some? ==> forall j :: i <= j < r.value ==> !ApiMatchAt(url, j)
    ensures r.None? ==> forall j :: i <= j ==> !ApiMatchAt(url, j)
  {
    if i >= |url| then None
    else if ApiMatchAt(url, i) then Some(i)
    else FirstApiMatch(url, i + 1)
  }

  /** The number captured by `(\d+)` when the expression matches at `j`. */
  function CapturedId(url: string, j: nat): nat
    requires ApiMatchAt(url, j)
  {
    DigitsValue(LeadingDigits(url[j + |API_PATH|..]))
  }

  /**
   * `extractIdFromUrl(url)`. With a CDN configured and the URL starting with
   * it, only the CDN rule is tried: the rest is read by `parseInt`, and NaN or
   * 0 gives null. Otherwise the first match of the API-path expression gives
   * the id (0 included), and no match gives null.
   */
  function ExtractIdFromUrl(cdn: string, url: string): (r: Option<int>)
    ensures cdn != "" && cdn <= url ==>
      match r
      case Some(v) => v != 0 && ParseInt(url[|cdn|..]) == Some(v)
      case None => ParseInt(url[|cdn|..]) in {None, Some(0)}
    ensures !(cdn != "" && cdn <= url) ==>
      (r.Some? <==> exists j: nat :: ApiMatchAt(url, j))
    ensures !(cdn != "" && cdn <= url) && r.Some? ==>
      exists j: nat :: ApiMatchAt(url, j) && r.value == CapturedId(url, j) &&
        forall k :: 0 <= k < j ==> !ApiMatchAt(url, k)
  {
    if cdn != "" && cdn <= url then
      var id := ParseInt(url[|cdn|..]);
      if id.Some? && id.value != 0 then id else None
    else if Contains(url, API_PATH) then
      match FirstApiMatch(url, 0)
      case Some(j) => Some(CapturedId(url, j))
      case None => None
    else
      NoIncludesNoMatch(url);
      None
  }

  /** Without an occurrence of the API path there is no match of the API-path expression. */
  lemma NoIncludesNoMatch(url: string)
    ensures !Contains(url, API_PATH) ==> forall j: nat :: !ApiMatchAt(url, j)
  {
    forall j: nat | ApiMatchAt(url, j) ensures Contains(url, API_PATH) {
      ApiMatchImpliesIncludes(url, j);
    }
  }

  /** Any API-path match is an occurrence of the API path, so the `includes` guard never hides one. */
  lemma ApiMatchImpliesIncludes(url: string, j: nat)
    requires ApiMatchAt(url, j)
    ensures Contains(url, API_PATH)
  {
    OccursImpliesContains(url, API_PATH, j);
  }

  /**
   * The URL the upload hands out reads back as the id it was built from:
   * always without a CDN, and for every id but 0 with one (`parseInt(...) || null`
   * turns 0 into null).
   */
  lemma ExtractOfGetImageUrl(cdn: string, id: nat)
    ensures ExtractIdFromUrl(cdn, GetImageUrl(cdn, id)) == if cdn == "" || id != 0 then Some(id) else None
  {
    var url := GetImageUrl(cdn, id);
    var digits := NatToString(id);
    if cdn != "" {
      assert cdn <= url;
      assert url[|cdn|..] == digits + [];
      ParseIntOfNatToString(id, []);
    } else {
      assert url == API_PATH + digits;
      assert url[..|API_PATH|] == API_PATH;
      assert OccursAt(url, API_PATH, 0);
      assert ApiMatchAt(url, 0);
      ApiMatchImpliesIncludes(url, 0);
      assert url[|API_PATH|..] == digits + [];
      LeadingDigitsOfDigits(digits, []);
      DigitsValueOfNatToString(id);
    }
  }

  /** A URL that starts with the CDN prefix is never read by the API-path rule, even when that rule would find an id. */
  lemma CdnRuleHasNoFallback()
    ensures ExtractIdFromUrl("c", "c/api/images/5") == None
    ensures ExtractIdFromUrl("", "c/api/images/5") == Some(5)
  {
    var url := "c/api/images/5";
    assert url[1..] == "/api/images/5";
    assert url[1..13] == API_PATH;
    assert ApiMatchAt(url, 1);
    assert !ApiMatchAt(url, 0) by { assert url[0..12][0] == 'c'; }
    FirstApiMatchIsLeftmost(url, 0, 1);
    ApiMatchImpliesIncludes(url, 1);
    assert url[13..] == "5";
  }

  /** When no position before `j` matches and `j` does, the scan from `i` stops at `j`. */
  lemma {:induction false} FirstApiMatchIsLeftmost(url: string, i: nat, j: nat)
    requires i <= j && ApiMatchAt(url, j)
    requires forall k :: i <= k < j ==> !ApiMatchAt(url, k)
    ensures FirstApiMatch(url, i) == Some(j)
    decreases j - i
  {
    if i < j {
      FirstApiMatchIsLeftmost(url, i + 1, j);
    }
  }

  /** A URL that matches neither rule gives null. */
  lemma NeitherRuleGivesNull(cdn: string, url: string)
    requires !(cdn != "" && cdn <= url)
    requires forall j: nat :: !ApiMatchAt(url, j)
    ensures ExtractIdFromUrl(cdn, url) == None
  {
  }
}
