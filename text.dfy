/** String helpers shared by the components: JavaScript's `Array.join`,
    `String.split` on one character, `toLowerCase` and `includes`. */
module Text {

  /** `parts.join(sep)`: the parts with `sep` between neighbours. */
  function Join(parts: seq<string>, sep: string): string
  {
    if |parts| == 0 then ""
    else if |parts| == 1 then parts[0]
    else parts[0] + sep + Join(parts[1..], sep)
  }

  /** `s.split(c)` for a one-character separator: JavaScript returns at least
      one piece (`"".split(c)` is `[""]`) and no piece holds the separator. */
  function Split(s: string, c: char): (r: seq<string>)
    ensures |r| >= 1
    ensures forall k :: 0 <= k < |r| ==> c !in r[k]
    ensures |r| - 1 == CountChar(s, c)
  {
    if |s| == 0 then [""]
    else
      var rest := Split(s[1..], c);
      if s[0] == c then [""] + rest
      else [[s[0]] + rest[0]] + rest[1..]
  }

  /** Number of occurrences of `c` in `s`. */
  function CountChar(s: string, c: char): nat
  {
    if |s| == 0 then 0 else (if s[0] == c then 1 else 0) + CountChar(s[1..], c)
  }

  /** Joining the pieces of a split with the separator gives back the text. */
  lemma {:induction false} SplitJoin(s: string, c: char)
    ensures Join(Split(s, c), [c]) == s
  {
    if |s| > 0 {
      var rest := Split(s[1..], c);
      SplitJoin(s[1..], c);
      if s[0] == c {
        assert Split(s, c) == [""] + rest;
        JoinCons("", rest, [c]);
        assert s == [s[0]] + s[1..];
      } else {
        var r := [[s[0]] + rest[0]] + rest[1..];
        assert Split(s, c) == r;
        if |rest| == 1 {
          assert Join(rest, [c]) == rest[0];
          assert s == [s[0]] + s[1..];
        } else {
          JoinCons(rest[0], rest[1..], [c]);
          assert rest == [rest[0]] + rest[1..];
          JoinCons([s[0]] + rest[0], rest[1..], [c]);
          assert s == [s[0]] + s[1..];
        }
      }
    }
  }

  /** Unfolding `Join` at the front. */
  lemma JoinCons(first: string, rest: seq<string>, sep: string)
    requires |rest| >= 1
    ensures Join([first] + rest, sep) == first + sep + Join(rest, sep)
  {
    assert ([first] + rest)[1..] == rest;
  }

  /** Appending `tail` to the last part appends it to the joined text; this is
      how a cursor glyph placed on the last line ends up at the very end. */
  lemma {:induction false} JoinAppendLast(parts: seq<string>, sep: string, tail: string)
    requires |parts| >= 1
    ensures Join(parts[..|parts| - 1] + [parts[|parts| - 1] + tail], sep) == Join(parts, sep) + tail
  {
    var n := |parts|;
    var q := parts[..n - 1] + [parts[n - 1] + tail];
    if n == 1 {
      assert q == [parts[0] + tail];
    } else {
      var p1 := parts[1..];
      JoinAppendLast(p1, sep, tail);
      assert q[1..] == p1[..|p1| - 1] + [p1[|p1| - 1] + tail];
      assert q[0] == parts[0];
    }
  }

  /** JavaScript's `toLowerCase` restricted to the ASCII letters. */
  function LowerChar(ch: char): (r: char)
    ensures 'A' <= ch <= 'Z' ==> r == ch - 'A' + 'a'
    ensures !('A' <= ch <= 'Z') ==> r == ch
  {
    if 'A' <= ch <= 'Z' then (ch as int - 'A' as int + 'a' as int) as char else ch
  }

  function ToLower(s: string): (r: string)
    ensures |r| == |s|
    ensures forall k :: 0 <= k < |s| ==> r[k] == LowerChar(s[k])
  {
    seq(|s|, k requires 0 <= k < |s| => LowerChar(s[k]))
  }

  predicate OccursAt(s: string, sub: string, k: int)
  {
    0 <= k && k + |sub| <= |s| && s[k..k + |sub|] == sub
  }

  /** `s.includes(sub)`: `sub` occurs somewhere in `s`. */
  function Contains(s: string, sub: string): (r: bool)
    ensures r <==> exists k :: OccursAt(s, sub, k)
  {
    if |s| < |sub| then
      assert forall k :: !OccursAt(s, sub, k);
      false
    else if s[..|sub|] == sub then
      assert OccursAt(s, sub, 0);
      true
    else
      var r := Contains(s[1..], sub);
      assert forall k :: OccursAt(s[1..], sub, k) <==> OccursAt(s, sub, k + 1) by {
        forall k
          ensures OccursAt(s[1..], sub, k) <==> OccursAt(s, sub, k + 1)
        {
          if 0 <= k && k + |sub| <= |s[1..]| {
            assert s[1..][k..k + |sub|] == s[k + 1..k + 1 + |sub|];
          }
        }
      }
      assert !OccursAt(s, sub, 0);
      assert (exists k :: OccursAt(s, sub, k)) ==> exists k :: OccursAt(s[1..], sub, k) by {
        if exists k :: OccursAt(s, sub, k) {
          var k :| OccursAt(s, sub, k);
          assert k >= 1;
          assert OccursAt(s[1..], sub, k - 1);
        }
      }
      r
  }
}
