/** Models of the PHP string functions the builders rely on: prefix and suffix
    tests (substr comparisons), str_replace of a single character, rtrim/ltrim
    with a character list, and implode. */
module PhpStrings {

  predicate StartsWith(s: string, prefix: string) {
    |prefix| <= |s| && s[..|prefix|] == prefix
  }

  predicate EndsWith(s: string, suffix: string) {
    |suffix| <= |s| && s[|s| - |suffix|..] == suffix
  }

  /** str_replace(from, to, s) where `from` is one character. */
  function Replace(s: string, from: char, to: string): (r: string)
    ensures from !in to ==> from !in r
    ensures from !in s ==> r == s
    decreases |s|
  {
    if s == [] then []
    else (if s[0] == from then to else [s[0]]) + Replace(s[1..], from, to)
  }

  /** str_replace distributes over concatenation. */
  lemma {:induction false} ReplaceAppend(a: string, b: string, from: char, to: string)
    ensures Replace(a + b, from, to) == Replace(a, from, to) + Replace(b, from, to)
    decreases |a|
  {
    if a == [] {
      assert a + b == b;
    } else {
      assert (a + b)[0] == a[0];
      assert (a + b)[1..] == a[1..] + b;
      ReplaceAppend(a[1..], b, from, to);
    }
  }

  /** Replacing one character by one character keeps positions:
      the model of str_replace(' ', '_', name). */
  lemma {:induction false} ReplaceByChar(s: string, from: char, to: char)
    ensures |Replace(s, from, [to])| == |s|
    ensures forall i | 0 <= i < |s| :: Replace(s, from, [to])[i] == if s[i] == from then to else s[i]
    decreases |s|
  {
    if s != [] {
      ReplaceByChar(s[1..], from, to);
      var r := Replace(s, from, [to]);
      assert r == [if s[0] == from then to else s[0]] + Replace(s[1..], from, [to]);
      forall i | 0 <= i < |s|
        ensures r[i] == if s[i] == from then to else s[i]
      {
        if i > 0 {
          assert r[i] == Replace(s[1..], from, [to])[i - 1];
          assert s[1..][i - 1] == s[i];
        }
      }
    }
  }

  /** rtrim(s, cut): the longest prefix of `s` that does not end in a character of `cut`. */
  function TrimRight(s: string, cut: set<char>): (r: string)
    ensures StartsWith(s, r)
    ensures r == [] || r[|r| - 1] !in cut
    ensures forall i | |r| <= i < |s| :: s[i] in cut
    decreases |s|
  {
    if s != [] && s[|s| - 1] in cut then TrimRight(s[..|s| - 1], cut) else s
  }

  /** ltrim(s, cut): the longest suffix of `s` that does not start with a character of `cut`. */
  function TrimLeft(s: string, cut: set<char>): (r: string)
    ensures EndsWith(s, r)
    ensures r == [] || r[0] !in cut
    ensures forall i | 0 <= i < |s| - |r| :: s[i] in cut
    decreases |s|
  {
    if s != [] && s[0] in cut then TrimLeft(s[1..], cut) else s
  }

  /** implode(sep, parts). */
  function Join(sep: string, parts: seq<string>): (r: string)
    ensures parts != [] ==> StartsWith(r, parts[0]) && EndsWith(r, parts[|parts| - 1])
    ensures |parts| == 1 ==> r == parts[0]
    ensures |parts| == 2 ==> r == parts[0] + sep + parts[1]
    decreases |parts|
  {
    if parts == [] then ""
    else if |parts| == 1 then parts[0]
    else Join(sep, parts[..|parts| - 1]) + sep + parts[|parts| - 1]
  }

  /** Appending a part appends the separator and that part: with Join's
      single-part case this determines implode for any number of parts. */
  lemma {:induction false} JoinAppendPart(sep: string, parts: seq<string>, p: string)
    requires parts != []
    ensures Join(sep, parts + [p]) == Join(sep, parts) + sep + p
  {
    assert (parts + [p])[..|parts|] == parts;
  }
}
