/** src/utils/strings.py: prefix and suffix removal with Python slicing semantics. */
module Strings {

  predicate StartsWith(text: string, prefix: string) {
    |prefix| <= |text| && text[..|prefix|] == prefix
  }

  predicate EndsWith(text: string, suffix: string) {
    |suffix| <= |text| && text[|text| - |suffix|..] == suffix
  }

  /** The end index Python uses for the slice `s[:stop]`: a negative stop counts
      from the end, and `-0` is simply `0`. */
  function SliceStop(len: nat, stop: int): (r: nat)
    ensures r <= len
    ensures 0 <= stop <= len ==> r == stop
    ensures 0 - len <= stop < 0 ==> r == len + stop
  {
    if stop < 0 then (if len + stop < 0 then 0 else len + stop)
    else if stop > len then len
    else stop
  }

  /** `remove_prefix`: drop `prefix` from the front of `text` when it is there. */
  function RemovePrefix(text: string, prefix: string): (r: string)
    ensures StartsWith(text, prefix) ==> prefix + r == text
    ensures !StartsWith(text, prefix) ==> r == text
    ensures |r| <= |text|
  {
    if StartsWith(text, prefix) then text[|prefix|..] else text
  }

  /** `remove_suffix`: `text[:-len(suffix)]` when `text` ends with `suffix`. For an
      empty suffix that slice is `text[:0]`, so the result is empty. */
  function RemoveSuffix(text: string, suffix: string): (r: string)
    ensures EndsWith(text, suffix) && suffix != [] ==> r + suffix == text
    ensures EndsWith(text, suffix) && suffix == [] ==> r == []
    ensures !EndsWith(text, suffix) ==> r == text
    ensures |r| <= |text|
  {
    if EndsWith(text, suffix) then text[..SliceStop(|text|, -|suffix|)] else text
  }
}
