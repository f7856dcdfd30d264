/** Facts about sequences that several components share. */
module Sequences {
  ghost predicate Distinct<T>(s: seq<T>) {
    forall i, j :: 0 <= i < j < |s| ==> s[i] != s[j]
  }

  predicate StandsAt(text: string, part: string, k: nat) {
    k + |part| <= |text| && text[k..k + |part|] == part
  }

  /** `part in text`. */
  predicate Contains(text: string, part: string) {
    exists k :: 0 <= k <= |text| && StandsAt(text, part, k)
  }
}
