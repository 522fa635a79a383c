/**
 * Address text shown under each map: `shortenToZamboanga` (script.js:172-178)
 * and the text chosen when a reverse-geocode lookup completes
 * (script.js:180-197 and 300-318).
 */
module Addresses {

  const City: string := "Zamboanga City"
  const LoadingText: string := "Loading address..."
  const NotFoundText: string := "Address not found."
  const FetchFailedText: string := "Unable to fetch address."

  /** `pat` occurs in `s` starting at index `i`. */
  predicate OccursAt(s: string, pat: string, i: int) {
    0 <= i && i + |pat| <= |s| && s[i..i + |pat|] == pat
  }

  /** The first occurrence of `pat` in `s` at or after `from`, or -1. */
  function IndexFrom(s: string, pat: string, from: nat): (r: int)
    requires from <= |s|
    ensures r == -1 || (from <= r && OccursAt(s, pat, r))
    ensures forall j :: from <= j && (r == -1 || j < r) ==> !OccursAt(s, pat, j)
    decreases |s| - from
  {
    if from + |pat| > |s| then -1
    else if s[from..from + |pat|] == pat then from
    else IndexFrom(s, pat, from + 1)
  }

  /** `s.indexOf(pat)`: the index of the first occurrence, or -1 when there is none. */
  function IndexOf(s: string, pat: string): (r: int)
    ensures r == -1 || OccursAt(s, pat, r)
    ensures forall j :: 0 <= j && (r == -1 || j < r) ==> !OccursAt(s, pat, j)
  {
    IndexFrom(s, pat, 0)
  }

  /** The address names the city somewhere. */
  predicate MentionsCity(s: string) {
    exists i | 0 <= i <= |s| :: OccursAt(s, City, i)
  }

  /**
   * `shortenToZamboanga`: cut the address just after the first "Zamboanga City";
   * an address without it is returned whole. The result is a prefix of the input
   * that, when the city occurs, ends with it and contains it nowhere else.
   */
  function Shorten(address: string): (r: string)
    ensures r <= address
    ensures !MentionsCity(address) ==> r == address
    ensures MentionsCity(address) ==>
      OccursAt(r, City, |r| - |City|) && forall j :: OccursAt(r, City, j) ==> j == |r| - |City|
  {
    var idx := IndexOf(address, City);
    if idx != -1 then
      var r := address[..idx + |City|];
      PrefixOccurrences(r, address);
      r
    else
      address
  }

  /** An occurrence inside a prefix is an occurrence in the whole string. */
  lemma PrefixOccurrences(t: string, s: string)
    requires t <= s
    ensures forall j :: OccursAt(t, City, j) ==> OccursAt(s, City, j)
  {
    forall j | OccursAt(t, City, j) ensures OccursAt(s, City, j) {
      assert s[j..j + |City|] == t[j..j + |City|];
    }
  }

  /** The shortened address is the prefix ending exactly where the first occurrence ends. */
  lemma ShortenCutsAfterFirstOccurrence(address: string, i: int)
    requires OccursAt(address, City, i)
    requires forall j :: 0 <= j < i ==> !OccursAt(address, City, j)
    ensures Shorten(address) == address[..i + |City|]
  {
  }

  /** Shortening an already shortened address changes nothing. */
  lemma ShortenIdempotent(address: string)
    ensures Shorten(Shorten(address)) == Shorten(address)
  {
  }

  /** The outcome of the Nominatim reverse lookup, as the `then`/`catch` callbacks see it. */
  datatype Lookup =
    | Answered(displayName: string)   // JSON with a `display_name` field
    | NoName                          // JSON that is null or has no `display_name`
    | FetchFailed                     // network error or JSON parse error

  /**
   * The text an address paragraph ends with once the lookup completes. An empty
   * `display_name` is falsy in the source and so reads as "not found".
   */
  function AddressText(outcome: Lookup): (text: string)
    ensures outcome.FetchFailed? ==> text == FetchFailedText
    ensures outcome.NoName? ==> text == NotFoundText
    ensures outcome.Answered? && outcome.displayName == [] ==> text == NotFoundText
    ensures outcome.Answered? && outcome.displayName != [] ==>
      text <= outcome.displayName && text == Shorten(outcome.displayName)
  {
    match outcome
    case Answered(name) => if name != [] then Shorten(name) else NotFoundText
    case NoName => NotFoundText
    case FetchFailed => FetchFailedText
  }
}
