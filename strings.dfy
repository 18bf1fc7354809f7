/**
  The parts of Go's strings package the publisher calls (Split and Join), for a separator of
  one character, with the facts about them that the publisher's contracts rest on. IndexOf
  and LastIndexOf are helpers for stating those contracts; the publisher does not call them.
*/
module Strings {
  /** `c` occurs nowhere in `s`. */
  predicate Lacks(s: string, c: char) {
    forall k :: 0 <= k < |s| ==> s[k] != c
  }

  /** Lacks is the negation of membership. */
  lemma LacksNotIn(s: string, c: char)
    ensures Lacks(s, c) <==> c !in s
  {
  }

  /** The first position of `c` in `s`, or -1. */
  function IndexOf(s: string, c: char): (i: int)
    ensures -1 <= i < |s|
    ensures i == -1 <==> Lacks(s, c)
    ensures 0 <= i ==> s[i] == c && Lacks(s[..i], c)
  {
    if |s| == 0 then -1
    else if s[0] == c then 0
    else
      var j := IndexOf(s[1..], c);
      if j == -1 then -1 else j + 1
  }

  /** The last position of `c` in `s`, or -1. */
  function LastIndexOf(s: string, c: char): (i: int)
    ensures -1 <= i < |s|
    ensures i == -1 <==> Lacks(s, c)
    ensures 0 <= i ==> s[i] == c && Lacks(s[i + 1..], c)
  {
    if |s| == 0 then -1
    else
      var j := LastIndexOf(s[1..], c);
      if 0 <= j then j + 1
      else if s[0] == c then 0
      else -1
  }

  /**
    strings.Split(s, sep): the pieces between the separators, at least one. A separator
    starts a new piece; any other character extends the current one.
  */
  function Split(s: string, sep: char): (parts: seq<string>)
    ensures |parts| >= 1
  {
    if |s| == 0 then [""]
    else
      var rest := Split(s[1..], sep);
      if s[0] == sep then [""] + rest
      else [[s[0]] + rest[0]] + rest[1..]
  }

  /** strings.Join(parts, sep). */
  function Join(parts: seq<string>, sep: char): string {
    if |parts| == 0 then ""
    else if |parts| == 1 then parts[0]
    else parts[0] + [sep] + Join(parts[1..], sep)
  }

  /**
    What strings.Join puts where: nothing for no pieces; otherwise the first piece opens the
    result, followed by the separator when more come, and the last piece closes it.
  */
  lemma {:induction false} JoinEnds(parts: seq<string>, sep: char)
    ensures |parts| == 0 ==> Join(parts, sep) == ""
    ensures |parts| >= 1 ==> var r := Join(parts, sep);
              |parts[0]| <= |r| && r[..|parts[0]|] == parts[0]
    ensures |parts| >= 2 ==> var r := Join(parts, sep);
              |parts[0]| < |r| && r[|parts[0]|] == sep
    ensures |parts| >= 1 ==> var r := Join(parts, sep); var last := parts[|parts| - 1];
              |last| <= |r| && r[|r| - |last|..] == last
  {
    if |parts| >= 2 {
      var rest := Join(parts[1..], sep);
      JoinEnds(parts[1..], sep);
      var r := parts[0] + [sep] + rest;
      assert Join(parts, sep) == r;
      assert r[..|parts[0]|] == parts[0];
      assert r[|r| - |rest|..] == rest;
    }
  }

  /** A string without the separator splits into itself alone. */
  lemma {:induction false} SplitNoSeparator(s: string, sep: char)
    requires Lacks(s, sep)
    ensures Split(s, sep) == [s]
    decreases |s|
  {
    if |s| > 0 {
      SplitNoSeparator(s[1..], sep);
      assert s == [s[0]] + s[1..];
    }
  }

  /** A separator-free prefix followed by a separator is the first piece, and the rest splits on. */
  lemma {:induction false} SplitAppend(x: string, y: string, sep: char)
    requires Lacks(x, sep)
    ensures Split(x + [sep] + y, sep) == [x] + Split(y, sep)
    decreases |x|
  {
    var s := x + [sep] + y;
    if |x| == 0 {
      assert s[1..] == y;
    } else {
      SplitAppend(x[1..], y, sep);
      assert s[1..] == x[1..] + [sep] + y;
      assert [x[0]] + x[1..] == x;
    }
  }

  /** A string is the text before position `i`, the character there, and the rest. */
  lemma Around(s: string, i: int, c: char)
    requires 0 <= i < |s| && s[i] == c
    ensures s == s[..i] + [c] + s[i + 1..]
  {
  }

  /**
    The first piece of a split ends at the first separator and the others are the split of
    what follows it; without a separator the split is the string alone.
  */
  lemma SplitAtFirst(s: string, sep: char)
    ensures Lacks(s, sep) ==> Split(s, sep) == [s]
    ensures !Lacks(s, sep) ==> Split(s, sep) == [s[..IndexOf(s, sep)]] + Split(s[IndexOf(s, sep) + 1..], sep)
  {
    if Lacks(s, sep) {
      SplitNoSeparator(s, sep);
    } else {
      var i := IndexOf(s, sep);
      Around(s, i, sep);
      SplitAppend(s[..i], s[i + 1..], sep);
    }
  }

  /** A split has one piece exactly when the separator is absent. */
  lemma SplitOnePiece(s: string, sep: char)
    ensures |Split(s, sep)| == 1 <==> Lacks(s, sep)
  {
    SplitAtFirst(s, sep);
  }

  /** No piece of a split holds the separator. */
  lemma {:induction false} SplitPiecesFree(s: string, sep: char)
    ensures forall k :: 0 <= k < |Split(s, sep)| ==> Lacks(Split(s, sep)[k], sep)
    decreases |s|
  {
    if |s| > 0 {
      SplitPiecesFree(s[1..], sep);
    }
  }

  lemma JoinCons(x: string, xs: seq<string>, sep: char)
    requires |xs| >= 1
    ensures Join([x] + xs, sep) == x + [sep] + Join(xs, sep)
  {
    assert ([x] + xs)[1..] == xs;
  }

  /** A character in front of the first piece is a character in front of the join. */
  lemma JoinPrepend(c: char, x: string, xs: seq<string>, sep: char)
    ensures Join([[c] + x] + xs, sep) == [c] + Join([x] + xs, sep)
  {
    if |xs| > 0 {
      JoinCons([c] + x, xs, sep);
      JoinCons(x, xs, sep);
    }
  }

  /** Joining the pieces of a split gives the string back. */
  lemma {:induction false} JoinSplit(s: string, sep: char)
    ensures Join(Split(s, sep), sep) == s
    decreases |s|
  {
    if |s| > 0 {
      var t := s[1..];
      var qs := Split(t, sep);
      JoinSplit(t, sep);
      if s[0] == sep {
        JoinCons("", qs, sep);
      } else {
        JoinPrepend(s[0], qs[0], qs[1..], sep);
        assert [qs[0]] + qs[1..] == qs;
      }
      assert s == [s[0]] + t;
    }
  }

  /** Splitting a join of separator-free pieces gives the pieces back. */
  lemma {:induction false} SplitJoin(parts: seq<string>, sep: char)
    requires |parts| >= 1
    requires forall k :: 0 <= k < |parts| ==> Lacks(parts[k], sep)
    ensures Split(Join(parts, sep), sep) == parts
  {
    if |parts| == 1 {
      SplitNoSeparator(parts[0], sep);
    } else {
      SplitJoin(parts[1..], sep);
      SplitAppend(parts[0], Join(parts[1..], sep), sep);
      assert parts == [parts[0]] + parts[1..];
    }
  }

  /** Joining every piece but the last gives the text before the last separator. */
  lemma {:induction false} JoinAllButLast(s: string, sep: char)
    ensures AllButLastJoins(s, sep)
    decreases |s|
  {
    if |s| > 0 {
      JoinAllButLast(s[1..], sep);
      if !Lacks(s[1..], sep) {
        AllButLastSeparatorInTail(s, sep);
      } else if s[0] == sep {
        AllButLastSeparatorFirst(s, sep);
      } else {
        LacksCons(s, sep);
        SplitNoSeparator(s, sep);
      }
    }
  }

  /** Joining every piece of the split of `s` but the last gives the text before its last separator, or "" without one. */
  predicate AllButLastJoins(s: string, sep: char) {
    var ps := Split(s, sep);
    Join(ps[..|ps| - 1], sep) == if Lacks(s, sep) then "" else s[..LastIndexOf(s, sep)]
  }

  /** The step of JoinAllButLast when the tail holds a separator. */
  lemma AllButLastSeparatorInTail(s: string, sep: char)
    requires |s| > 0 && !Lacks(s[1..], sep) && AllButLastJoins(s[1..], sep)
    ensures AllButLastJoins(s, sep)
  {
    var t := s[1..];
    var qs := Split(t, sep);
    var ps := Split(s, sep);
    SplitOnePiece(t, sep);
    LacksCons(s, sep);
    var j := LastIndexOf(t, sep);
    assert LastIndexOf(s, sep) == j + 1;
    PrefixCons(s, j);
    if s[0] == sep {
      assert ps == [""] + qs;
      JoinFrontAfterSeparator(qs, sep);
    } else {
      assert ps == [[s[0]] + qs[0]] + qs[1..];
      JoinFrontExtended(s[0], qs, sep);
    }
  }

  /** The step of JoinAllButLast when the only separator is the first character. */
  lemma AllButLastSeparatorFirst(s: string, sep: char)
    requires |s| > 0 && Lacks(s[1..], sep) && s[0] == sep
    ensures AllButLastJoins(s, sep)
  {
    var qs := Split(s[1..], sep);
    var ps := Split(s, sep);
    SplitOnePiece(s[1..], sep);
    LacksCons(s, sep);
    assert ps == [""] + qs;
    assert ps[..|ps| - 1] == [""];
    assert LastIndexOf(s, sep) == 0;
  }


  /** A non-empty string lacks `c` when its first character is not `c` and its tail lacks it. */
  lemma LacksCons(s: string, c: char)
    requires |s| > 0
    ensures Lacks(s, c) <==> s[0] != c && Lacks(s[1..], c)
  {
    if s[0] != c && Lacks(s[1..], c) {
      forall k | 0 <= k < |s|
        ensures s[k] != c
      {
        if k > 0 {
          assert s[k] == s[1..][k - 1];
        }
      }
    }
  }

  /** The text before position `j + 1` is the first character and the text of the tail before `j`. */
  lemma PrefixCons(s: string, j: int)
    requires 0 <= j < |s| - 1
    ensures s[..j + 1] == [s[0]] + s[1..][..j]
  {
  }

  /** For a split that starts with an empty piece, every piece but the last joins behind a separator. */
  lemma JoinFrontAfterSeparator(qs: seq<string>, sep: char)
    requires |qs| > 1
    ensures var ps := [""] + qs;
            Join(ps[..|ps| - 1], sep) == [sep] + Join(qs[..|qs| - 1], sep)
  {
    var ps := [""] + qs;
    assert ps[..|ps| - 1] == [""] + qs[..|qs| - 1];
    JoinCons("", qs[..|qs| - 1], sep);
  }

  /** For a split whose first piece gains a character, every piece but the last joins behind that character. */
  lemma JoinFrontExtended(c: char, qs: seq<string>, sep: char)
    requires |qs| > 1
    ensures var ps := [[c] + qs[0]] + qs[1..];
            Join(ps[..|ps| - 1], sep) == [c] + Join(qs[..|qs| - 1], sep)
  {
    var ps := [[c] + qs[0]] + qs[1..];
    var middle := qs[1..|qs| - 1];
    assert ps[..|ps| - 1] == [[c] + qs[0]] + middle;
    assert qs[..|qs| - 1] == [qs[0]] + middle;
    JoinPrepend(c, qs[0], middle, sep);
  }
}
