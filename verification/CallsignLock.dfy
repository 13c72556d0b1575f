/** Which callsign the dialog locks onto when a parse disagrees with the configured one. */
module CallsignLock {

  predicate IsLetter(c: char) { 'a' <= c <= 'z' || 'A' <= c <= 'Z' }
  predicate IsDigit(c: char) { '0' <= c <= '9' }

  function Lower(c: char): char {
    if 'A' <= c <= 'Z' then c - 'A' + 'a' else c
  }

  /** Space-separated words, letters and digits only, in lower case; `cur` is the word so far. */
  function Words(s: string, cur: string): seq<string> {
    if s == [] then (if cur == "" then [] else [cur])
    else if s[0] == ' ' then (if cur == "" then [] else [cur]) + Words(s[1..], "")
    else if IsLetter(s[0]) || IsDigit(s[0]) then Words(s[1..], cur + [Lower(s[0])])
    else Words(s[1..], cur)
  }

  predicate OccursAt(hay: string, needle: string, k: int) {
    0 <= k <= |hay| - |needle| && hay[k..k + |needle|] == needle
  }

  predicate Contains(hay: string, needle: string) {
    exists k | 0 <= k <= |hay| :: OccursAt(hay, needle, k)
  }

  /** Same last word, but second-last words of which neither contains the other. */
  predicate Conflicts(parsed: string, reference: string) {
    var p, r := Words(parsed, ""), Words(reference, "");
    && |p| >= 2 && |r| >= 2 && p[|p|-1] == r[|r|-1]
    && p[|p|-2] != r[|r|-2]
    && !Contains(p[|p|-2], r[|r|-2]) && !Contains(r[|r|-2], p[|p|-2])
  }

  function Lock(parsed: string, reference: string): (locked: string)
    ensures reference != "" ==> !Conflicts(locked, reference)
    ensures locked == parsed || locked == reference
    ensures parsed != "" ==> locked != ""
  {
    if reference != "" && Conflicts(parsed, reference) then reference else parsed
  }
}
