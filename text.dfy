/**
 * The two JavaScript string operations the core relies on:
 * `s.split(' ')`, which keeps empty pieces, and `s.includes(sub)`.
 */
module Text {

  /** The pieces are separated by single spaces and hold none themselves. */
  predicate NoSpace(s: string) {
    forall i :: 0 <= i < |s| ==> s[i] != ' '
  }

  /** `pieces.join(' ')`. */
  function Join(pieces: seq<string>): string
    requires |pieces| >= 1
  {
    if |pieces| == 1 then pieces[0] else pieces[0] + " " + Join(pieces[1..])
  }

  /**
   * `s.split(' ')`: one piece more than there are spaces, empty pieces
   * kept (`"".split(' ')` is `[""]`), and joining the pieces gives `s` back.
   */
  function Split(s: string): (r: seq<string>)
    ensures |r| >= 1
    ensures forall i :: 0 <= i < |r| ==> NoSpace(r[i])
    ensures Join(r) == s
  {
    if s == [] then [""]
    else
      var rest := Split(s[1..]);
      if s[0] == ' ' then
        assert Join([""] + rest) == "" + " " + Join(rest) by {
          assert ([""] + rest)[1..] == rest;
        }
        assert s == [' '] + s[1..];
        [""] + rest
      else
        var first := [s[0]] + rest[0];
        var r := [first] + rest[1..];
        assert NoSpace(first) by {
          forall i | 0 <= i < |first|
            ensures first[i] != ' '
          {
            if i > 0 {
              assert first[i] == rest[0][i - 1];
            }
          }
        }
        assert Join(r) == [s[0]] + Join(rest) by {
          if |rest| > 1 {
            assert r[1..] == rest[1..];
            assert Join(rest) == rest[0] + " " + Join(rest[1..]);
          }
        }
        assert s == [s[0]] + s[1..];
        r
  }

  /** A text with no space is a single piece. */
  lemma SplitNoSpace(s: string)
    requires NoSpace(s)
    ensures Split(s) == [s]
    decreases |s|
  {
    if s != [] {
      assert NoSpace(s[1..]) by {
        forall i | 0 <= i < |s[1..]|
          ensures s[1..][i] != ' '
        {
          assert s[1..][i] == s[i + 1];
        }
      }
      SplitNoSpace(s[1..]);
      assert s == [s[0]] + s[1..];
    }
  }

  /** Splitting `a + " " + b` where `a` has no space: `a`, then the pieces of `b`. */
  lemma {:induction false} SplitAfterSpace(a: string, b: string)
    requires NoSpace(a)
    ensures Split(a + " " + b) == [a] + Split(b)
    decreases |a|
  {
    if a == [] {
      assert a + " " + b == [' '] + b;
      assert (a + " " + b)[1..] == b;
    } else {
      var s := a + " " + b;
      assert s[0] == a[0];
      assert s[1..] == a[1..] + " " + b;
      assert NoSpace(a[1..]) by {
        forall i | 0 <= i < |a[1..]|
          ensures a[1..][i] != ' '
        {
          assert a[1..][i] == a[i + 1];
        }
      }
      SplitAfterSpace(a[1..], b);
      assert [a[0]] + a[1..] == a;
    }
  }

  /** Splitting inverts joining, for pieces without spaces. */
  lemma {:induction false} SplitJoin(pieces: seq<string>)
    requires |pieces| >= 1
    requires forall i :: 0 <= i < |pieces| ==> NoSpace(pieces[i])
    ensures Split(Join(pieces)) == pieces
    decreases |pieces|
  {
    if |pieces| == 1 {
      SplitNoSpace(pieces[0]);
    } else {
      SplitJoin(pieces[1..]);
      SplitAfterSpace(pieces[0], Join(pieces[1..]));
      assert pieces == [pieces[0]] + pieces[1..];
    }
  }

  /** The first piece is the text up to the first space; a second piece exists exactly when there is a space. */
  lemma SplitFirst(s: string)
    ensures var r := Split(s);
            && (|r| >= 2 <==> exists i :: 0 <= i < |s| && s[i] == ' ')
            && (|r| >= 2 ==> s == r[0] + " " + Join(r[1..]))
            && (|r| == 1 ==> r[0] == s)
  {
    var r := Split(s);
    if |r| >= 2 {
      assert s == r[0] + " " + Join(r[1..]);
      var i := |r[0]|;
      assert s[i] == ' ';
    } else {
      assert r[0] == s;
      assert NoSpace(s);
    }
  }

  /** `sub` occurs in `s` starting at position `i`. */
  predicate OccursAt(s: string, sub: string, i: nat) {
    i + |sub| <= |s| && s[i..i + |sub|] == sub
  }

  /** `s.includes(sub)`. */
  function Contains(s: string, sub: string): (r: bool)
    ensures r <==> exists i: nat :: OccursAt(s, sub, i)
    decreases |s|
  {
    if |sub| > |s| then false
    else if s[..|sub|] == sub then assert OccursAt(s, sub, 0); true
    else
      var r := Contains(s[1..], sub);
      assert r ==> exists i: nat :: OccursAt(s, sub, i) by {
        if r {
          var j: nat :| OccursAt(s[1..], sub, j);
          assert s[j + 1..j + 1 + |sub|] == s[1..][j..j + |sub|];
          assert OccursAt(s, sub, j + 1);
        }
      }
      assert (exists i: nat :: OccursAt(s, sub, i)) ==> r by {
        if exists i: nat :: OccursAt(s, sub, i) {
          var i: nat :| OccursAt(s, sub, i);
          assert i != 0;
          assert s[1..][i - 1..i - 1 + |sub|] == s[i..i + |sub|];
          assert OccursAt(s[1..], sub, i - 1);
        }
      }
      r
  }
}
