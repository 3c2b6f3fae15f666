/** The few string operations of JavaScript the other modules rely on, with the laws that pin them down. */
module Strings {
  /** `pieces.join(separator)`. */
  function Join(pieces: seq<string>, separator: string): string {
    if pieces == [] then ""
    else if |pieces| == 1 then pieces[0]
    else pieces[0] + separator + Join(pieces[1..], separator)
  }

  /** One more character in front of a split text. */
  function Prepend(c: char, rest: seq<string>, separator: char): (pieces: seq<string>)
    requires rest != []
    ensures pieces != []
  {
    if c == separator then [""] + rest else [[c] + rest[0]] + rest[1..]
  }

  /** `s.split(separator)` for a separator of one character. */
  function Split(s: string, separator: char): (pieces: seq<string>)
    ensures |pieces| >= 1
  {
    if s == "" then [""] else Prepend(s[0], Split(s[1..], separator), separator)
  }

  function Init<T>(s: seq<T>): seq<T>
    requires s != []
  {
    s[..|s| - 1]
  }

  function Last<T>(s: seq<T>): T
    requires s != []
  {
    s[|s| - 1]
  }

  /** A text without the separator stays in one piece. */
  lemma {:induction false} SplitWhole(s: string, separator: char)
    requires separator !in s
    ensures Split(s, separator) == [s]
  {
    if s != "" {
      SplitWhole(s[1..], separator);
      assert s == [s[0]] + s[1..];
    }
  }

  lemma PrependAppend(c: char, rest: seq<string>, tail: seq<string>, separator: char)
    requires |rest| > 1 || c == separator
    requires rest != []
    requires tail != []
    ensures Prepend(c, Init(rest) + tail, separator) == Init(Prepend(c, rest, separator)) + tail
    ensures Last(Prepend(c, rest, separator)) == Last(rest)
  {
    var front := Init(rest);
    if c != separator {
      var first := [c] + rest[0];
      assert front != [] && (front + tail)[0] == rest[0] && (front + tail)[1..] == front[1..] + tail;
      assert [first] + front[1..] + tail == [first] + (front[1..] + tail);
      assert Init([first] + rest[1..]) == [first] + front[1..];
    } else {
      assert [""] + front + tail == [""] + (front + tail);
      assert Init([""] + rest) == [""] + front;
    }
  }

  /** Only the last piece of a text can grow when more text arrives. */
  lemma {:induction false} SplitAppend(a: string, b: string, separator: char)
    ensures Split(a + b, separator) ==
            Init(Split(a, separator)) + Split(Last(Split(a, separator)) + b, separator)
  {
    if a == "" {
      assert "" + b == b;
    } else {
      var rest := Split(a[1..], separator);
      assert Split(a, separator) == Prepend(a[0], rest, separator);
      assert (a + b)[1..] == a[1..] + b;
      assert Split(a + b, separator) == Prepend(a[0], Split(a[1..] + b, separator), separator);
      if |rest| > 1 || a[0] == separator {
        hide Split, Prepend;
        SplitAppend(a[1..], b, separator);
        PrependAppend(a[0], rest, Split(Last(rest) + b, separator), separator);
      } else {
        var grown := [a[0]] + rest[0] + b;
        assert grown[1..] == rest[0] + b;
        assert Split(grown, separator) == Prepend(a[0], Split(rest[0] + b, separator), separator);
        hide Split;
        SplitAppend(a[1..], b, separator);
        assert Split(a[1..] + b, separator) == Split(rest[0] + b, separator);
        assert Init(Split(a, separator)) == [];
      }
    }
  }

  /** The pieces contain no separator. */
  lemma {:induction false} PiecesAreFree(s: string, separator: char, i: nat)
    requires i < |Split(s, separator)|
    ensures separator !in Split(s, separator)[i]
  {
    if s != "" {
      var rest := Split(s[1..], separator);
      if s[0] == separator {
        if i > 0 { PiecesAreFree(s[1..], separator, i - 1); }
      } else {
        PiecesAreFree(s[1..], separator, i);
      }
    }
  }

  lemma JoinPrepend(c: char, rest: seq<string>, separator: char)
    requires rest != []
    ensures Join(Prepend(c, rest, separator), [separator]) == [c] + Join(rest, [separator])
  {
    var pieces := Prepend(c, rest, separator);
    if c == separator {
      assert pieces[1..] == rest && "" + [c] == [c];
    } else {
      assert pieces[1..] == rest[1..];
      var head, more := rest[0], [separator] + Join(rest[1..], [separator]);
      assert [c] + (head + more) == ([c] + head) + more;
      assert head + more == head + [separator] + Join(rest[1..], [separator]);
      assert ([c] + head) + more == [c] + head + [separator] + Join(rest[1..], [separator]);
    }
  }

  /** Joining what was split gives the text back. */
  lemma {:induction false} JoinSplit(s: string, separator: char)
    ensures Join(Split(s, separator), [separator]) == s
  {
    if s != "" {
      hide Join, Prepend;
      JoinSplit(s[1..], separator);
      JoinPrepend(s[0], Split(s[1..], separator), separator);
      assert s == [s[0]] + s[1..];
    }
  }

  /** A piece ends at the first separator. */
  lemma {:induction false} SplitHead(piece: string, rest: string, separator: char)
    requires separator !in piece
    ensures Split(piece + [separator] + rest, separator) == [piece] + Split(rest, separator)
  {
    var s := piece + [separator] + rest;
    if piece == "" {
      assert s[1..] == rest;
    } else {
      SplitHead(piece[1..], rest, separator);
      assert s[1..] == piece[1..] + [separator] + rest;
      assert piece == [piece[0]] + piece[1..];
    }
  }

  /** Splitting what was joined gives the pieces back, provided they are free of the separator. */
  lemma {:induction false} SplitJoin(pieces: seq<string>, separator: char)
    requires pieces != []
    requires forall i :: 0 <= i < |pieces| ==> separator !in pieces[i]
    ensures Split(Join(pieces, [separator]), separator) == pieces
  {
    if |pieces| == 1 {
      SplitWhole(pieces[0], separator);
    } else {
      assert pieces == [pieces[0]] + pieces[1..];
      assert Join(pieces, [separator]) == pieces[0] + [separator] + Join(pieces[1..], [separator]);
      hide Split, Join;
      SplitJoin(pieces[1..], separator);
      SplitHead(pieces[0], Join(pieces[1..], [separator]), separator);
    }
  }

  /** The white space and line terminators that `trim` removes. */
  predicate IsSpace(c: char) {
    c in "\t\n\r \U{B}\U{C}\U{A0}\U{1680}\U{2028}\U{2029}\U{202F}\U{205F}\U{3000}\U{FEFF}" ||
    '\U{2000}' <= c <= '\U{200A}'
  }

  predicate IsTrimmed(s: string) {
    s != "" ==> !IsSpace(s[0]) && !IsSpace(s[|s| - 1])
  }

  function TrimStart(s: string): (r: string)
    ensures r != "" ==> !IsSpace(r[0])
    ensures |r| <= |s| && r == s[|s| - |r|..]
    ensures forall i :: 0 <= i < |s| - |r| ==> IsSpace(s[i])
  {
    if s != "" && IsSpace(s[0]) then TrimStart(s[1..]) else s
  }

  function TrimEnd(s: string): (r: string)
    ensures r != "" ==> !IsSpace(r[|r| - 1])
    ensures |r| <= |s| && r == s[..|r|]
    ensures forall i :: |r| <= i < |s| ==> IsSpace(s[i])
  {
    if s != "" && IsSpace(s[|s| - 1]) then TrimEnd(s[..|s| - 1]) else s
  }

  lemma TrimKeepsTheMiddle(s: string, rest: string, r: string)
    requires |rest| <= |s| && rest == s[|s| - |rest|..] && forall i :: 0 <= i < |s| - |rest| ==> IsSpace(s[i])
    requires |r| <= |rest| && r == rest[..|r|] && forall i :: |r| <= i < |rest| ==> IsSpace(rest[i])
    ensures var i, j := |s| - |rest|, |s| - |rest| + |r|;
      r == s[i..j] && forall k :: 0 <= k < i || j <= k < |s| ==> IsSpace(s[k])
  {
    hide IsSpace;
    var i := |s| - |rest|;
    forall k | i + |r| <= k < |s| ensures IsSpace(s[k]) {
      assert s[k] == rest[k - i];
    }
  }

  /** `s.trim()`. */
  function Trim(s: string): (r: string)
    ensures IsTrimmed(r)
    ensures exists i, j :: (0 <= i <= j <= |s| && r == s[i..j] &&
                            forall k :: 0 <= k < i || j <= k < |s| ==> IsSpace(s[k]))
    ensures IsTrimmed(s) ==> r == s
  {
    hide IsSpace;
    TrimKeepsTheMiddle(s, TrimStart(s), TrimEnd(TrimStart(s)));
    TrimEnd(TrimStart(s))
  }
}
