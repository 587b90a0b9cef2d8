/** The String methods the application uses: toLowerCase/toUpperCase
    (ASCII letters only), includes, split and join on one character,
    replace of the first occurrence of a character, and substring(0, n). */
module Text {

  function LowerChar(c: char): char
  {
    if 'A' <= c <= 'Z' then (c as int + 32) as char else c
  }

  function UpperChar(c: char): char
  {
    if 'a' <= c <= 'z' then (c as int - 32) as char else c
  }

  function Lower(s: string): (r: string)
    ensures |r| == |s|
    ensures forall i :: 0 <= i < |s| ==> r[i] == LowerChar(s[i])
  {
    seq(|s|, i requires 0 <= i < |s| => LowerChar(s[i]))
  }

  function Upper(s: string): (r: string)
    ensures |r| == |s|
    ensures forall i :: 0 <= i < |s| ==> r[i] == UpperChar(s[i])
  {
    seq(|s|, i requires 0 <= i < |s| => UpperChar(s[i]))
  }

  /** Lower-casing forgets whether the text was upper-cased first. */
  lemma LowerOfUpper(s: string)
    ensures Lower(Upper(s)) == Lower(s)
  {
    assert forall i :: 0 <= i < |s| ==> LowerChar(UpperChar(s[i])) == LowerChar(s[i]);
  }

  lemma LowerIdempotent(s: string)
    ensures Lower(Lower(s)) == Lower(s)
  {
  }

  /** needle occurs in hay starting at position i. */
  predicate OccursAt(hay: string, needle: string, i: int)
  {
    0 <= i && i + |needle| <= |hay| && hay[i..i + |needle|] == needle
  }

  /** String.prototype.includes. */
  function Contains(hay: string, needle: string): (r: bool)
    ensures r <==> exists i :: OccursAt(hay, needle, i)
  {
    if |needle| > |hay| then
      assert forall i :: !OccursAt(hay, needle, i);
      false
    else if hay[..|needle|] == needle then
      assert OccursAt(hay, needle, 0);
      true
    else
      var rest := Contains(hay[1..], needle);
      assert forall i :: OccursAt(hay[1..], needle, i) <==> OccursAt(hay, needle, i + 1) by {
        forall i ensures OccursAt(hay[1..], needle, i) <==> OccursAt(hay, needle, i + 1) {
          if 0 <= i && i + |needle| <= |hay[1..]| {
            assert hay[1..][i..i + |needle|] == hay[i + 1..i + 1 + |needle|];
          }
        }
      }
      assert !OccursAt(hay, needle, 0);
      assert forall i :: OccursAt(hay, needle, i) ==> i == 0 || OccursAt(hay[1..], needle, i - 1);
      rest
  }

  /** String.prototype.split(sep) for a one-character separator: the pieces
      between separators, including empty ones. */
  function Split(s: string, sep: char): (r: seq<string>)
    ensures |r| >= 1
  {
    if s == [] then [""]
    else if s[0] == sep then [""] + Split(s[1..], sep)
    else
      var w := Split(s[1..], sep);
      [[s[0]] + w[0]] + w[1..]
  }

  /** Array.prototype.join(sep). */
  function Join(ws: seq<string>, sep: char): string
  {
    if ws == [] then ""
    else if |ws| == 1 then ws[0]
    else ws[0] + [sep] + Join(ws[1..], sep)
  }

  /** Joining the pieces of a split gives back the original text. */
  lemma {:induction false} JoinSplit(s: string, sep: char)
    ensures Join(Split(s, sep), sep) == s
  {
    if s != [] {
      JoinSplit(s[1..], sep);
      if s[0] == sep {
        JoinSplitSeparator(s, sep);
      } else {
        JoinSplitLetter(s, sep);
      }
    }
  }

  lemma JoinSplitSeparator(s: string, sep: char)
    requires s != [] && s[0] == sep
    requires Join(Split(s[1..], sep), sep) == s[1..]
    ensures Join(Split(s, sep), sep) == s
  {
    var w := Split(s[1..], sep);
    var ws := [""] + w;
    assert Split(s, sep) == ws;
    assert ws[0] == "" && ws[1..] == w;
    assert Join(ws, sep) == [sep] + Join(w, sep);
    assert s == [s[0]] + s[1..];
  }

  lemma JoinSplitLetter(s: string, sep: char)
    requires s != [] && s[0] != sep
    requires Join(Split(s[1..], sep), sep) == s[1..]
    ensures Join(Split(s, sep), sep) == s
  {
    var w := Split(s[1..], sep);
    var first := [s[0]] + w[0];
    var ws := [first] + w[1..];
    assert Split(s, sep) == ws;
    assert ws[0] == first && ws[1..] == w[1..];
    if |w| == 1 {
      assert Join(ws, sep) == first;
      assert Join(w, sep) == w[0];
    } else {
      assert Join(w, sep) == w[0] + [sep] + Join(w[1..], sep);
      assert Join(ws, sep) == first + [sep] + Join(w[1..], sep);
      assert first + [sep] + Join(w[1..], sep) == [s[0]] + (w[0] + [sep] + Join(w[1..], sep));
    }
    assert s == [s[0]] + s[1..];
  }

  /** No piece of a split contains the separator. */
  lemma {:induction false} SplitPiecesFree(s: string, sep: char)
    ensures forall w :: w in Split(s, sep) ==> sep !in w
  {
    if s != [] {
      SplitPiecesFree(s[1..], sep);
      var w := Split(s[1..], sep);
      if s[0] != sep {
        assert w[0] in w;
        forall v | v in Split(s, sep) ensures sep !in v {
          if v != [s[0]] + w[0] {
            assert v in w[1..];
          }
        }
      }
    }
  }

  /** String.prototype.replace(from, to) with one-character strings:
      only the first occurrence is replaced. */
  function ReplaceFirst(s: string, from: char, to: char): (r: string)
    ensures |r| == |s|
  {
    if s == [] then []
    else if s[0] == from then [to] + s[1..]
    else [s[0]] + ReplaceFirst(s[1..], from, to)
  }

  /** Position i is replaced exactly when it holds the first occurrence. */
  lemma {:induction false} ReplaceFirstAt(s: string, from: char, to: char, i: int)
    requires 0 <= i < |s|
    ensures ReplaceFirst(s, from, to)[i] == if s[i] == from && from !in s[..i] then to else s[i]
  {
    if s[0] == from {
      if i > 0 {
        assert s[..i][0] == from;
      }
    } else if i > 0 {
      ReplaceFirstAt(s[1..], from, to, i - 1);
      assert s[..i] == [s[0]] + s[1..][..i - 1];
    }
  }

  /** String.prototype.substring(0, n) for n >= 0. */
  function Prefix(s: string, n: nat): (r: string)
    ensures |r| == if n < |s| then n else |s|
    ensures r == s[..|r|]
  {
    if n < |s| then s[..n] else s
  }
}
