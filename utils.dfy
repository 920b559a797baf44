/** pkg/utils/utils.go: image-name and number helpers and the home
    directory lookup. The same `homeDir` and `_int32_to_string` appear
    again in cmd/kubenx/cmd/common.go and internal_common.go; those copies
    are modelled by the members here. */
module Utils {

  import opened GoStrings
  import opened GoStrconv

  /** `RemoveSHATags`: strips an `@sha256:...` digest from an image
      reference, keeping everything before the first `@`. */
  function RemoveSHATags(image: string): (r: string)
    ensures '@' in image ==> r == image[..IndexOf(image, '@')]
    ensures '@' !in image ==> r == image
    ensures r <= image && '@' !in r
  {
    if ContainsChar(image, '@') then image[..IndexOf(image, '@')] else image
  }

  /** Removing the digest twice is removing it once. */
  lemma RemoveSHATagsIdempotent(image: string)
    ensures RemoveSHATags(RemoveSHATags(image)) == RemoveSHATags(image)
  {
  }

  /** `Int32ToString`: `strconv.FormatInt(int64(num), 10)`; never empty,
      with a leading `-` exactly for negative numbers. */
  function Int32ToString(num: int32): (r: string)
    ensures |r| > 0 && (r[0] == '-' <==> num < 0)
  {
    FormatIntShape(num as int);
    FormatInt(num as int)
  }

  /** The rendering parses back to the number, and a non-negative number
      renders as digits alone. */
  lemma Int32ToStringParses(num: int32)
    ensures ParseInt(Int32ToString(num)) == Parsed(num as int)
    ensures num >= 0 ==> AllDigits(Int32ToString(num))
  {
    ParseFormatRoundTrip(num as int);
    FormatIntShape(num as int);
  }

  /** `HomeDir`: `$HOME` when it is set and non-empty, else `$USERPROFILE`.
      The two environment values are parameters. */
  function HomeDir(home: string, userProfile: string): (r: string)
    ensures home != "" ==> r == home
    ensures home == "" ==> r == userProfile
  {
    if home != "" then home else userProfile
  }
}
