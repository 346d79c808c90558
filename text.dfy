/** The string primitives the schema tools rely on: lower-casing, substring
    search and replacing the first occurrence of a character. */
module Text {

  /** Lower-cases one character; only the ASCII letters A-Z are mapped. */
  function LowerChar(c: char): char
  {
    if 'A' <= c <= 'Z' then (c as int - 'A' as int + 'a' as int) as char else c
  }

  /** `s.toLowerCase()`, restricted to ASCII letters. */
  function Lower(s: string): string
  {
    if s == [] then [] else [LowerChar(s[0])] + Lower(s[1..])
  }

  /** Lower-casing keeps the length, maps every character on its own and
      leaves no upper-case ASCII letter. */
  lemma {:induction false} LowerSpec(s: string)
    ensures |Lower(s)| == |s|
    ensures forall i :: 0 <= i < |s| ==> Lower(s)[i] == LowerChar(s[i])
    ensures forall i :: 0 <= i < |s| ==> !('A' <= Lower(s)[i] <= 'Z')
  {
    if s != [] {
      LowerSpec(s[1..]);
    }
  }

  /** `sub` occurs in `s` at position `i`. */
  ghost predicate OccursAt(s: string, sub: string, i: int)
  {
    0 <= i && i + |sub| <= |s| && s[i..i + |sub|] == sub
  }

  /** `s.includes(sub)`, scanning the windows of `s` from the left. */
  function Includes(s: string, sub: string): bool
    decreases |s|
  {
    if |s| < |sub| then false
    else if s[..|sub|] == sub then true
    else Includes(s[1..], sub)
  }

  /** `Includes` holds exactly when some window of `s` equals `sub`. */
  lemma {:induction false} IncludesSpec(s: string, sub: string)
    ensures Includes(s, sub) <==> exists i :: OccursAt(s, sub, i)
    decreases |s|
  {
    if |s| < |sub| {
    } else if s[..|sub|] == sub {
      assert OccursAt(s, sub, 0);
    } else {
      var rest := s[1..];
      IncludesSpec(rest, sub);
      forall i | OccursAt(rest, sub, i)
        ensures OccursAt(s, sub, i + 1)
      {
        assert rest[i..i + |sub|] == s[i + 1..i + 1 + |sub|];
      }
      forall i | OccursAt(s, sub, i)
        ensures i >= 1 && OccursAt(rest, sub, i - 1)
      {
        assert rest[i - 1..i - 1 + |sub|] == s[i..i + |sub|];
      }
    }
  }

  /** `s.indexOf(c)`: the first position of `c` in `s`, or -1. */
  function IndexOf(s: string, c: char): (k: int)
    ensures -1 <= k < |s|
    ensures k == -1 <==> c !in s
    ensures k >= 0 ==> s[k] == c && c !in s[..k]
    decreases |s|
  {
    if |s| == 0 then
      -1
    else if s[0] == c then
      0
    else
      var k := IndexOf(s[1..], c);
      if k == -1 then
        assert s == [s[0]] + s[1..];
        -1
      else
        assert s[..k + 1] == [s[0]] + s[1..][..k];
        k + 1
  }

  /** `s.replace(c, "")` with a one-character pattern: only the FIRST
      occurrence of `c` is removed; without one, `s` is returned unchanged. */
  function RemoveFirst(s: string, c: char): (r: string)
    ensures c !in s ==> r == s
    ensures c in s ==> |r| == |s| - 1
    ensures c in s ==> exists k :: 0 <= k < |s| && s[k] == c && c !in s[..k] && r == s[..k] + s[k + 1..]
  {
    var k := IndexOf(s, c);
    if k < 0 then s else s[..k] + s[k + 1..]
  }
}
