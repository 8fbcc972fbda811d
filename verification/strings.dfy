/** JavaScript `replace` with a single-character string pattern, which
    rewrites only the first occurrence, together with the position of that
    first occurrence. */
module Strings {
  import opened Wrappers

  /** The index of the first occurrence of `c` in `s`, the one `replace`
      rewrites, or `None` when `c` does not occur. */
  function FirstIndex(s: string, c: char): (r: Option<nat>)
    ensures r.None? <==> c !in s
    ensures r.Some? ==> r.value < |s| && s[r.value] == c && c !in s[..r.value]
  {
    if s == [] then None
    else if s[0] == c then Some(0)
    else
      match FirstIndex(s[1..], c)
      case None => None
      case Some(i) =>
        assert s[..i + 1] == [s[0]] + s[1..][..i];
        Some(i + 1)
  }

  /** `s.replace(from, to)` where `from` and `to` are one-character strings:
      the first occurrence of `from` becomes `to`, and every other character,
      including later occurrences of `from`, stays where it was. */
  function ReplaceFirst(s: string, from: char, to: char): (r: string)
    ensures |r| == |s|
    ensures FirstIndex(s, from).None? ==> r == s
    ensures FirstIndex(s, from).Some? ==>
      && r[FirstIndex(s, from).value] == to
      && forall k :: 0 <= k < |s| && k != FirstIndex(s, from).value ==> r[k] == s[k]
  {
    if s == [] then []
    else if s[0] == from then [to] + s[1..]
    else [s[0]] + ReplaceFirst(s[1..], from, to)
  }

  /** Reference definition of the same replacement as a splice around the
      first occurrence. */
  lemma ReplaceFirstIsSplice(s: string, from: char, to: char)
    ensures FirstIndex(s, from).None? ==> ReplaceFirst(s, from, to) == s
    ensures FirstIndex(s, from).Some? ==>
      var i := FirstIndex(s, from).value;
      ReplaceFirst(s, from, to) == s[..i] + [to] + s[i + 1..]
  {
    if FirstIndex(s, from).Some? {
      var i := FirstIndex(s, from).value;
      var r := ReplaceFirst(s, from, to);
      var spliced := s[..i] + [to] + s[i + 1..];
      assert |r| == |spliced|;
      forall k | 0 <= k < |r|
        ensures r[k] == spliced[k]
      {
        if k < i {
          assert spliced[k] == s[k];
        } else if k > i {
          assert spliced[k] == s[k];
        }
      }
    }
  }

  /** Replacing the first occurrence in `u + [from] + rest`, where `u` does
      not contain `from`, turns exactly the separator into `to`: the part
      before it and the part after it, including later occurrences of
      `from`, are copied verbatim. */
  lemma ReplaceFirstOfConcat(u: string, from: char, to: char, rest: string)
    requires from !in u
    ensures ReplaceFirst(u + [from] + rest, from, to) == u + [to] + rest
  {
    var s := u + [from] + rest;
    assert s[|u|] == from;
    var i := FirstIndex(s, from).value;
    assert i == |u|;
    ReplaceFirstIsSplice(s, from, to);
    assert s[..i] == u;
    assert s[i + 1..] == rest;
  }
}
