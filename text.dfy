/** String operations of the JavaScript runtime that the relay relies on:
    `split('\n')`, `startsWith`, `trim`, `includes`, `replaceAll`, the UTF-16
    `length`, and the join that builds frames and instructions. Strings are
    sequences of Unicode scalar values. */
module Text {

  datatype Option<+T> = None | Some(value: T)

  /** `s.startsWith(p)` */
  predicate StartsWith(s: string, p: string) {
    |p| <= |s| && s[..|p|] == p
  }

  /** `s.includes(p)` */
  predicate Includes(s: string, p: string) {
    StartsWith(s, p) || (s != [] && Includes(s[1..], p))
  }

  /** `s.split(sep)` for a one-character separator: the pieces between the
      separators, in order, empty pieces included. */
  function Split(s: string, sep: char): (r: seq<string>)
    ensures |r| >= 1
  {
    if s == [] then [""]
    else
      var rest := Split(s[1..], sep);
      if s[0] == sep then [""] + rest
      else [[s[0]] + rest[0]] + rest[1..]
  }

  /** No piece of a split holds the separator. */
  lemma {:induction false} SplitPieces(s: string, sep: char)
    ensures forall i :: 0 <= i < |Split(s, sep)| ==> sep !in Split(s, sep)[i]
  {
    if s != [] {
      SplitPieces(s[1..], sep);
      var rest := Split(s[1..], sep);
      var r := Split(s, sep);
      if s[0] == sep {
        assert forall i :: 1 <= i < |r| ==> r[i] == rest[i - 1];
      } else {
        assert r[0] == [s[0]] + rest[0];
        assert forall i :: 1 <= i < |r| ==> r[i] == rest[i];
      }
    }
  }

  /** `parts.join(sep)` for a one-character separator. */
  function Join(parts: seq<string>, sep: char): string
    requires |parts| >= 1
  {
    if |parts| == 1 then parts[0] else parts[0] + [sep] + Join(parts[1..], sep)
  }

  /** `parts.join(sep)` for a separator string (the instruction builder joins with " "). */
  function JoinWith(parts: seq<string>, sep: string): string
  {
    if parts == [] then ""
    else if |parts| == 1 then parts[0]
    else parts[0] + sep + JoinWith(parts[1..], sep)
  }

  /** Concatenation of a sequence of strings. */
  function Concat(parts: seq<string>): string
  {
    if parts == [] then "" else parts[0] + Concat(parts[1..])
  }

  /** Text followed by a concatenation: the first part joins the text. */
  lemma ConcatFirst(x: string, parts: seq<string>)
    requires parts != []
    ensures x + Concat(parts) == (x + parts[0]) + Concat(parts[1..])
  {
  }

  lemma {:induction false} SplitSingle(s: string, sep: char)
    requires sep !in s
    ensures Split(s, sep) == [s]
  {
    if s != [] {
      assert s[0] != sep && sep !in s[1..];
      SplitSingle(s[1..], sep);
      assert [s[0]] + s[1..] == s;
    }
  }

  /** Splitting at one separator splits the pieces on each side independently. */
  lemma {:induction false} SplitAround(a: string, b: string, sep: char)
    ensures Split(a + [sep] + b, sep) == Split(a, sep) + Split(b, sep)
  {
    if a == [] {
      assert a + [sep] + b == [sep] + b;
      assert ([sep] + b)[1..] == b;
    } else {
      var t := a + [sep] + b;
      assert t[0] == a[0] && t[1..] == a[1..] + [sep] + b;
      SplitAround(a[1..], b, sep);
    }
  }

  /** `split` undoes `join` when no part contains the separator. */
  lemma {:induction false} SplitJoin(parts: seq<string>, sep: char)
    requires |parts| >= 1
    requires forall i :: 0 <= i < |parts| ==> sep !in parts[i]
    ensures Split(Join(parts, sep), sep) == parts
  {
    if |parts| == 1 {
      SplitSingle(parts[0], sep);
    } else {
      SplitJoin(parts[1..], sep);
      SplitAround(parts[0], Join(parts[1..], sep), sep);
      SplitSingle(parts[0], sep);
    }
  }

  /** `join` undoes `split`: no character is lost or added. */
  lemma {:induction false} JoinSplit(s: string, sep: char)
    ensures Join(Split(s, sep), sep) == s
  {
    if s != [] {
      JoinSplit(s[1..], sep);
      var rest := Split(s[1..], sep);
      if s[0] != sep {
        if |rest| == 1 {
          assert Join(rest, sep) == rest[0];
        } else {
          assert Join(rest, sep) == rest[0] + [sep] + Join(rest[1..], sep);
          assert ([[s[0]] + rest[0]] + rest[1..])[1..] == rest[1..];
        }
      }
    }
  }

  /** All pieces but the last, and the last piece, of a split. */
  function Init(pieces: seq<string>): seq<string>
    requires |pieces| >= 1
  {
    pieces[..|pieces| - 1]
  }

  function Last(pieces: seq<string>): string
    requires |pieces| >= 1
  {
    pieces[|pieces| - 1]
  }

  lemma InitLastAppend(a: seq<string>, t: seq<string>)
    requires |t| >= 1
    ensures Init(a + t) == a + Init(t) && Last(a + t) == Last(t)
  {
    assert (a + t)[..|a + t| - 1] == a + t[..|t| - 1];
  }

  /** A line, a blank line, then more text. */
  lemma FrameSplit(a: string, w: string, sep: char)
    requires sep !in a
    ensures Split(a + [sep, sep] + w, sep) == [a] + ([""] + Split(w, sep))
  {
    assert a + [sep, sep] + w == a + [sep] + ([] + [sep] + w);
    SplitAround(a, [] + [sep] + w, sep);
    SplitAround([], w, sep);
    SplitSingle(a, sep);
  }

  /** Splitting a concatenation: the complete pieces of the first part, then
      the split of its unterminated last piece followed by the second part. */
  lemma {:induction false} SplitConcat(x: string, y: string, sep: char)
    ensures Split(x + y, sep) == Init(Split(x, sep)) + Split(Last(Split(x, sep)) + y, sep)
  {
    if x == [] {
      assert x + y == y && "" + y == y;
    } else {
      SplitConcat(x[1..], y, sep);
      SplitConcatStep(x, y, sep);
    }
  }

  lemma SplitConcatStep(x: string, y: string, sep: char)
    requires x != []
    requires Split(x[1..] + y, sep) == Init(Split(x[1..], sep)) + Split(Last(Split(x[1..], sep)) + y, sep)
    ensures Split(x + y, sep) == Init(Split(x, sep)) + Split(Last(Split(x, sep)) + y, sep)
  {
    var c := x[0];
    var s := Split(x[1..], sep);
    var r := Split(x[1..] + y, sep);
    var tail := Split(Last(s) + y, sep);
    assert (x + y)[0] == c && (x + y)[1..] == x[1..] + y;
    if c == sep {
      assert Split(x + y, sep) == [""] + r;
      assert Split(x, sep) == [""] + s;
      PiecesCons("", s, tail);
    } else {
      assert Split(x + y, sep) == [[c] + r[0]] + r[1..];
      assert Split(x, sep) == [[c] + s[0]] + s[1..];
      if |s| == 1 {
        SplitConcatShort(c, s[0], y, sep);
        PiecesMergeShort(c, s, r);
      } else {
        PiecesMerge(c, s, tail);
      }
    }
  }

  lemma PiecesCons(h: string, s: seq<string>, tail: seq<string>)
    requires |s| >= 1
    ensures [h] + (Init(s) + tail) == Init([h] + s) + tail
    ensures Last([h] + s) == Last(s)
  {
    assert Init([h] + s) == [h] + Init(s);
  }

  lemma PiecesMergeShort(c: char, s: seq<string>, r: seq<string>)
    requires |s| == 1 && |r| >= 1
    ensures Init([[c] + s[0]] + s[1..]) == [] && Last([[c] + s[0]] + s[1..]) == [c] + s[0]
  {
  }

  lemma PiecesMerge(c: char, s: seq<string>, tail: seq<string>)
    requires |s| >= 2
    ensures var r := Init(s) + tail; [[c] + r[0]] + r[1..] == Init([[c] + s[0]] + s[1..]) + tail
    ensures Last([[c] + s[0]] + s[1..]) == Last(s)
  {
    var r := Init(s) + tail;
    assert r[0] == s[0] && r[1..] == Init(s)[1..] + tail;
    assert Init([[c] + s[0]] + s[1..]) == [[c] + s[0]] + Init(s)[1..];
  }

  lemma SplitConcatShort(c: char, a: string, y: string, sep: char)
    requires c != sep
    ensures Split([c] + a + y, sep) == [[c] + Split(a + y, sep)[0]] + Split(a + y, sep)[1..]
  {
    var z := [c] + a + y;
    assert z[0] == c && z[1..] == a + y;
  }

  /** The characters `String.prototype.trim` removes: the WhiteSpace and
      LineTerminator code points of ECMAScript (section 12.2 and 12.3 of ECMA-262). */
  predicate IsJsSpace(c: char) {
    || c == '\t' || c == '\n' || c == '\U{000B}' || c == '\U{000C}' || c == '\r'
    || c == ' ' || c == '\U{00A0}' || c == '\U{1680}'
    || ('\U{2000}' <= c <= '\U{200A}')
    || c == '\U{2028}' || c == '\U{2029}' || c == '\U{202F}' || c == '\U{205F}'
    || c == '\U{3000}' || c == '\U{FEFF}'
  }

  function TrimStart(s: string): (r: string)
    ensures |r| <= |s| && r == s[|s| - |r|..]
    ensures r == [] || !IsJsSpace(r[0])
  {
    if s != [] && IsJsSpace(s[0]) then TrimStart(s[1..]) else s
  }

  function TrimEnd(s: string): (r: string)
    ensures |r| <= |s| && r == s[..|r|]
    ensures r == [] || !IsJsSpace(r[|r| - 1])
  {
    if s != [] && IsJsSpace(s[|s| - 1]) then TrimEnd(s[..|s| - 1]) else s
  }

  /** `s.trim()`: the longest middle slice that neither starts nor ends with a
      space; everything cut away is space. */
  function Trim(s: string): (r: string)
    ensures |r| <= |s|
    ensures r == [] || (!IsJsSpace(r[0]) && !IsJsSpace(r[|r| - 1]))
  {
    TrimEnd(TrimStart(s))
  }

  /** Only spaces are cut away, at either end. */
  lemma {:induction false} TrimStartCutsSpaces(s: string)
    ensures forall i :: 0 <= i < |s| - |TrimStart(s)| ==> IsJsSpace(s[i])
  {
    if s != [] && IsJsSpace(s[0]) {
      TrimStartCutsSpaces(s[1..]);
      assert forall i :: 1 <= i < |s| ==> s[i] == s[1..][i - 1];
    }
  }

  lemma {:induction false} TrimEndCutsSpaces(s: string)
    ensures forall i :: |TrimEnd(s)| <= i < |s| ==> IsJsSpace(s[i])
  {
    if s != [] && IsJsSpace(s[|s| - 1]) {
      TrimEndCutsSpaces(s[..|s| - 1]);
      assert forall i :: 0 <= i < |s| - 1 ==> s[i] == s[..|s| - 1][i];
    }
  }

  /** Trimming leaves alone a string that neither starts nor ends with a space,
      after any run of leading spaces. */
  lemma TrimSpaced(pad: string, body: string)
    requires forall k :: 0 <= k < |pad| ==> IsJsSpace(pad[k])
    requires body != [] && !IsJsSpace(body[0]) && !IsJsSpace(body[|body| - 1])
    ensures Trim(pad + body) == body
  {
    TrimStartSpaced(pad, body);
  }

  lemma {:induction false} TrimStartSpaced(pad: string, body: string)
    requires forall k :: 0 <= k < |pad| ==> IsJsSpace(pad[k])
    requires body != [] && !IsJsSpace(body[0])
    ensures TrimStart(pad + body) == body
  {
    if pad != [] {
      assert (pad + body)[1..] == pad[1..] + body;
      TrimStartSpaced(pad[1..], body);
    }
  }

  /** Number of UTF-16 code units of one character: JavaScript's `length`
      counts a character outside the Basic Multilingual Plane twice. */
  function Utf16Units(c: char): nat {
    if c as int > 0xFFFF then 2 else 1
  }

  /** `s.length` in JavaScript. */
  function Utf16Length(s: string): (n: nat)
    ensures |s| <= n <= 2 * |s|
  {
    if s == [] then 0 else Utf16Units(s[0]) + Utf16Length(s[1..])
  }

  lemma {:induction false} Utf16LengthAppend(a: string, b: string)
    ensures Utf16Length(a + b) == Utf16Length(a) + Utf16Length(b)
  {
    if a != [] {
      assert (a + b)[0] == a[0] && (a + b)[1..] == a[1..] + b;
      Utf16LengthAppend(a[1..], b);
    } else {
      assert a + b == b;
    }
  }

  /** `s.replaceAll(pat, rep)` for a non-empty pattern: occurrences are found
      from left to right, do not overlap, and the inserted text is not searched again. */
  function ReplaceAll(s: string, pat: string, rep: string): string
    requires pat != []
  {
    if s == [] then []
    else if StartsWith(s, pat) then rep + ReplaceAll(s[|pat|..], pat, rep)
    else [s[0]] + ReplaceAll(s[1..], pat, rep)
  }

  lemma {:induction false} ReplaceAllAbsent(s: string, pat: string, rep: string)
    requires pat != []
    requires forall i :: 0 <= i < |s| ==> !StartsWith(s[i..], pat)
    ensures ReplaceAll(s, pat, rep) == s
  {
    if s != [] {
      assert s[0..] == s;
      forall i | 0 <= i < |s[1..]| ensures !StartsWith(s[1..][i..], pat) {
        assert s[1..][i..] == s[i + 1..];
      }
      ReplaceAllAbsent(s[1..], pat, rep);
    }
  }

  /** The number of occurrences `replaceAll` replaces: found from left to
      right, without overlap. */
  function Occurrences(s: string, pat: string): nat
    requires pat != []
  {
    if s == [] then 0
    else if StartsWith(s, pat) then 1 + Occurrences(s[|pat|..], pat)
    else Occurrences(s[1..], pat)
  }

  /** Each replaced occurrence changes the length by the difference between
      the replacement and the pattern; nothing else changes it. */
  lemma {:induction false} ReplaceAllLength(s: string, pat: string, rep: string)
    requires pat != []
    ensures |ReplaceAll(s, pat, rep)| == |s| + Occurrences(s, pat) * (|rep| - |pat|)
    decreases |s|
  {
    if s != [] {
      if StartsWith(s, pat) {
        ReplaceAllLength(s[|pat|..], pat, rep);
        MulSucc(Occurrences(s[|pat|..], pat), |rep| - |pat|);
      } else {
        ReplaceAllLength(s[1..], pat, rep);
      }
    }
  }

  lemma MulSucc(n: nat, d: int)
    ensures (1 + n) * d == d + n * d
  {
  }
}
