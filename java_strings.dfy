/** The parts of java.lang.String that the reporter relies on: `split` with a separator
    that matches exactly one character (",", "=" and the escaped dot "\\.") and limit 0. */
module JavaStrings {

  /** How many times `c` occurs in `s`. */
  function Occurrences(s: string, c: char): nat
  {
    if s == [] then 0 else (if s[0] == c then 1 else 0) + Occurrences(s[1..], c)
  }

  /** The pieces of `s` between the occurrences of `sep`, empty pieces included. */
  function Pieces(s: string, sep: char): (r: seq<string>)
    ensures |r| == Occurrences(s, sep) + 1
    ensures forall i :: 0 <= i < |r| ==> sep !in r[i]
  {
    if s == [] then [""]
    else
      var rest := Pieces(s[1..], sep);
      if s[0] == sep then [""] + rest
      else [[s[0]] + rest[0]] + rest[1..]
  }

  /** The pieces joined back together with `sep` between neighbours. */
  function Join(parts: seq<string>, sep: char): string
  {
    if parts == [] then ""
    else if |parts| == 1 then parts[0]
    else parts[0] + [sep] + Join(parts[1..], sep)
  }

  /** Java's split(regex) with limit 0 drops trailing empty strings. */
  function StripTrailingEmpty(parts: seq<string>): (r: seq<string>)
    ensures |r| <= |parts| && r == parts[..|r|]
    ensures forall i :: |r| <= i < |parts| ==> parts[i] == ""
    ensures |r| > 0 ==> r[|r| - 1] != ""
  {
    if |parts| > 0 && parts[|parts| - 1] == "" then StripTrailingEmpty(parts[..|parts| - 1])
    else parts
  }

  /** `s.split(sep)`: when the separator does not occur the result is `[s]` (even for the
      empty string); otherwise the pieces, with trailing empty pieces removed. */
  function Split(s: string, sep: char): (r: seq<string>)
    ensures sep !in s ==> r == [s]
    ensures forall i :: 0 <= i < |r| ==> sep !in r[i]
    ensures |r| <= Occurrences(s, sep) + 1
  {
    if sep !in s then [s] else StripTrailingEmpty(Pieces(s, sep))
  }

  /** Joining the pieces restores the string: `Pieces` loses nothing. */
  lemma {:induction false} JoinPieces(s: string, sep: char)
    ensures Join(Pieces(s, sep), sep) == s
  {
    if s != [] {
      var rest := Pieces(s[1..], sep);
      JoinPieces(s[1..], sep);
      if s[0] == sep {
        assert ([""] + rest)[1..] == rest;
        assert s == [sep] + s[1..];
      } else {
        var p := [[s[0]] + rest[0]] + rest[1..];
        if |rest| == 1 {
          assert p == [[s[0]] + rest[0]];
        } else {
          assert p[1..] == rest[1..];
          assert Join(rest, sep) == rest[0] + [sep] + Join(rest[1..], sep);
        }
        assert s == [s[0]] + s[1..];
      }
    }
  }

  /** The last piece is empty exactly when `s` is empty or ends with `sep`. */
  lemma {:induction false} LastPieceEmpty(s: string, sep: char)
    ensures var p := Pieces(s, sep); p[|p| - 1] == "" <==> (s == [] || s[|s| - 1] == sep)
  {
    if s != [] {
      LastPieceEmpty(s[1..], sep);
      var rest := Pieces(s[1..], sep);
      if s[0] != sep && |rest| == 1 {
        assert Pieces(s, sep) == [[s[0]] + rest[0]];
      }
    }
  }

  /** A string without the separator is one piece. */
  lemma {:induction false} PiecesWithoutSep(a: string, sep: char)
    requires sep !in a
    ensures Pieces(a, sep) == [a]
  {
    if a != [] {
      PiecesWithoutSep(a[1..], sep);
      assert [a[0]] + a[1..] == a;
    }
  }

  /** A separator-free head followed by the separator is split off as the first piece. */
  lemma {:induction false} PiecesCons(a: string, sep: char, b: string)
    requires sep !in a
    ensures Pieces(a + [sep] + b, sep) == [a] + Pieces(b, sep)
  {
    if a == [] {
      assert a + [sep] + b == [sep] + b;
      assert ([sep] + b)[1..] == b;
    } else {
      PiecesCons(a[1..], sep, b);
      assert (a + [sep] + b)[1..] == a[1..] + [sep] + b;
      assert [a[0]] + a[1..] == a;
    }
  }

  /** When `s` contains `sep` and does not end with it, nothing is stripped, so joining the
      result of `split` gives back `s`. */
  lemma SplitJoin(s: string, sep: char)
    requires s != [] && s[|s| - 1] != sep
    ensures Split(s, sep) == Pieces(s, sep)
    ensures Join(Split(s, sep), sep) == s
  {
    LastPieceEmpty(s, sep);
    JoinPieces(s, sep);
  }
}
