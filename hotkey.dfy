/**
 * The global hotkey: the configured combination is split on '+' into the
 * key names the keyboard hook listens for.
 */
module Hotkey {

  const Separator: char := '+'

  /** strings.Split(s, string(sep)): every piece between separators, empty ones included. */
  function Split(s: string, sep: char): (pieces: seq<string>)
    ensures |pieces| >= 1
  {
    if s == [] then [[]]
    else
      var rest := Split(s[1..], sep);
      if s[0] == sep then [[]] + rest else [[s[0]] + rest[0]] + rest[1..]
  }

  /** strings.Join(pieces, string(sep)). */
  function Join(pieces: seq<string>, sep: char): string {
    if |pieces| == 0 then []
    else if |pieces| == 1 then pieces[0]
    else pieces[0] + [sep] + Join(pieces[1..], sep)
  }

  function Count(s: string, c: char): nat {
    if s == [] then 0 else (if s[0] == c then 1 else 0) + Count(s[1..], c)
  }

  /** No piece holds the separator. */
  predicate SeparatorFree(pieces: seq<string>, sep: char) {
    forall i :: 0 <= i < |pieces| ==> sep !in pieces[i]
  }

  /** The key names the listener registers for a configured hotkey. */
  function Keys(hotkey: string): (keys: seq<string>)
    ensures |keys| == Count(hotkey, Separator) + 1
    ensures SeparatorFree(keys, Separator)
    ensures Join(keys, Separator) == hotkey
  {
    SplitCount(hotkey, Separator);
    SplitSeparatorFree(hotkey, Separator);
    JoinSplit(hotkey, Separator);
    Split(hotkey, Separator)
  }

  lemma {:induction false} SplitCount(s: string, sep: char)
    ensures |Split(s, sep)| == Count(s, sep) + 1
  {
    if s != [] {
      SplitCount(s[1..], sep);
    }
  }

  lemma {:induction false} SplitSeparatorFree(s: string, sep: char)
    ensures SeparatorFree(Split(s, sep), sep)
  {
    if s != [] {
      SplitSeparatorFree(s[1..], sep);
      var rest := Split(s[1..], sep);
      if s[0] != sep {
        assert sep !in rest[0];
      }
    }
  }

  /** Joining prepends the first character of a first piece to the whole join. */
  lemma JoinConsFirst(c: char, pieces: seq<string>, sep: char)
    requires |pieces| >= 1
    ensures Join([[c] + pieces[0]] + pieces[1..], sep) == [c] + Join(pieces, sep)
  {
    var ps := [[c] + pieces[0]] + pieces[1..];
    assert ps[1..] == pieces[1..];
  }

  /** Joining the pieces with the separator gives back the hotkey. */
  lemma {:induction false} JoinSplit(s: string, sep: char)
    ensures Join(Split(s, sep), sep) == s
  {
    if s != [] {
      JoinSplit(s[1..], sep);
      var rest := Split(s[1..], sep);
      if s[0] == sep {
        assert ([[]] + rest)[1..] == rest;
        assert s == [sep] + s[1..];
      } else {
        JoinConsFirst(s[0], rest, sep);
        assert s == [s[0]] + s[1..];
      }
    }
  }

  /** Splitting a join of separator-free pieces gives back the pieces. */
  lemma {:induction false} SplitJoin(pieces: seq<string>, sep: char)
    requires |pieces| >= 1 && SeparatorFree(pieces, sep)
    ensures Split(Join(pieces, sep), sep) == pieces
    decreases |pieces|, |pieces[0]|
  {
    var p := pieces[0];
    if p == [] {
      if |pieces| > 1 {
        SplitJoin(pieces[1..], sep);
        assert Join(pieces, sep) == [sep] + Join(pieces[1..], sep);
      }
    } else {
      var tail := [p[1..]] + pieces[1..];
      assert SeparatorFree(tail, sep) by {
        forall i | 0 <= i < |tail| ensures sep !in tail[i] {
          if i == 0 { assert p == [p[0]] + p[1..]; } else { assert tail[i] == pieces[i]; }
        }
      }
      SplitJoin(tail, sep);
      assert p == [p[0]] + p[1..];
      assert tail[1..] == pieces[1..];
      JoinConsFirst(p[0], tail, sep);
      assert [[p[0]] + tail[0]] + tail[1..] == pieces;
      var j := Join(pieces, sep);
      assert j == [p[0]] + Join(tail, sep);
      assert j[1..] == Join(tail, sep);
      assert j[0] == p[0] != sep;
    }
  }

  lemma KeysExample()
    ensures Keys("ctrl+alt+q") == ["ctrl", "alt", "q"]
  {
    assert SeparatorFree(["ctrl", "alt", "q"], Separator);
    SplitJoin(["ctrl", "alt", "q"], Separator);
    assert Join(["ctrl", "alt", "q"], Separator) == "ctrl+alt+q";
  }
}
