/** The two string operations the request builder needs: Python's
    `sep.join(parts)`, and the splitting on a one-character separator that
    undoes it, used to state that a join loses nothing. */
module Strings {

  /** `sep.join(parts)`: the parts in order with `sep` between neighbours. */
  function Join(sep: string, parts: seq<string>): (r: string)
    ensures |r| == TotalLength(parts) + if parts == [] then 0 else (|parts| - 1) * |sep|
    ensures parts != [] ==> r[..|parts[0]|] == parts[0]
    ensures |parts| > 1 ==> r[|parts[0]|..|parts[0]| + |sep|] == sep
  {
    if |parts| == 0 then ""
    else if |parts| == 1 then parts[0]
    else parts[0] + sep + Join(sep, parts[1..])
  }

  /** The summed length of all parts. */
  function TotalLength(parts: seq<string>): nat {
    if parts == [] then 0 else |parts[0]| + TotalLength(parts[1..])
  }

  /** The position of the first occurrence of `c` in `s`. */
  function FirstIndex(s: string, c: char): (i: nat)
    requires c in s
    ensures i < |s| && s[i] == c
    ensures c !in s[..i]
  {
    if s[0] == c then 0
    else
      assert s == [s[0]] + s[1..];
      var k := FirstIndex(s[1..], c);
      assert s[..k + 1] == [s[0]] + s[1..][..k];
      k + 1
  }

  /** `s.split(c)`: the maximal pieces of `s` that do not contain `c`. */
  function Split(s: string, c: char): (r: seq<string>)
    ensures |r| >= 1
    decreases |s|
  {
    if c in s then
      var i := FirstIndex(s, c);
      [s[..i]] + Split(s[i + 1..], c)
    else [s]
  }

  /** A separator that does not occur in `head` is found right after it. */
  lemma FirstIndexAfter(head: string, c: char, tail: string)
    requires c !in head
    ensures c in head + [c] + tail
    ensures FirstIndex(head + [c] + tail, c) == |head|
  {
    var s := head + [c] + tail;
    assert s[|head|] == c;
    var i := FirstIndex(s, c);
    assert s[..|head|] == head;
  }

  /** Joining on a one-character separator that occurs in no part, and then
      splitting on it, gives back the very parts, in order. */
  lemma {:induction false} SplitJoin(parts: seq<string>, c: char)
    requires |parts| > 0
    requires forall k :: 0 <= k < |parts| ==> c !in parts[k]
    ensures Split(Join([c], parts), c) == parts
  {
    if |parts| > 1 {
      var rest := Join([c], parts[1..]);
      var s := Join([c], parts);
      assert s == parts[0] + [c] + rest;
      FirstIndexAfter(parts[0], c, rest);
      assert s[..|parts[0]|] == parts[0];
      assert s[|parts[0]| + 1..] == rest;
      SplitJoin(parts[1..], c);
      assert parts == [parts[0]] + parts[1..];
    }
  }
}
