/** The header's avatar initials: taken from the profile's full name, or
    from the e-mail address when there is no usable name. */
module Header {
  import opened Wrappers
  import opened Seqs
  import opened Text

  predicate NonEmptyWord(w: string) { w != "" }

  /** `words.map(n => n[0]).join("")`: the first character of each word;
      an empty word yields undefined, which joins as nothing. */
  function FirstLetters(words: seq<string>): (r: string)
    ensures |r| <= |words|
  {
    if words == [] then ""
    else (if words[0] == "" then "" else [words[0][0]]) + FirstLetters(words[1..])
  }

  /** The letters are exactly the first characters of the non-empty words,
      in order. */
  lemma {:induction false} FirstLettersOfWords(words: seq<string>)
    ensures |FirstLetters(words)| == |Filter(words, NonEmptyWord)|
    ensures forall i :: 0 <= i < |FirstLetters(words)| ==>
      |Filter(words, NonEmptyWord)[i]| > 0 && FirstLetters(words)[i] == Filter(words, NonEmptyWord)[i][0]
  {
    if words != [] {
      FirstLettersOfWords(words[1..]);
      var rest := Filter(words[1..], NonEmptyWord);
      if words[0] != "" {
        assert Filter(words, NonEmptyWord) == [words[0]] + rest;
        forall i | 0 < i < |FirstLetters(words)|
          ensures |Filter(words, NonEmptyWord)[i]| > 0 && FirstLetters(words)[i] == Filter(words, NonEmptyWord)[i][0]
        {
          assert FirstLetters(words)[i] == FirstLetters(words[1..])[i - 1];
          assert Filter(words, NonEmptyWord)[i] == rest[i - 1];
        }
      } else {
        assert Filter(words, NonEmptyWord) == rest;
      }
    }
  }

  /** The initials of a full name: the first letters of its space-separated
      words, upper-cased, at most two of them. */
  function Initials(fullName: string): (r: string)
    ensures |r| <= 2
  {
    Prefix(Upper(FirstLetters(Split(fullName, ' '))), 2)
  }

  /** The i-th initial is the upper-cased first character of the i-th
      non-empty word, and there are two initials whenever there are at least
      two non-empty words. */
  lemma InitialsOfWords(fullName: string)
    ensures var words := Filter(Split(fullName, ' '), NonEmptyWord);
      && |Initials(fullName)| == Min2(|words|)
      && forall i :: 0 <= i < |Initials(fullName)| ==> |words[i]| > 0 && Initials(fullName)[i] == UpperChar(words[i][0])
  {
    FirstLettersOfWords(Split(fullName, ' '));
  }

  function Min2(n: nat): nat { if n < 2 then n else 2 }

  /** A word character extends the first piece of the rest's split. */
  lemma SplitLetter(s: string, w: string, ws: seq<string>)
    requires |s| > 0 && s[0] != ' ' && Split(s[1..], ' ') == [w] + ws
    ensures Split(s, ' ') == [[s[0]] + w] + ws
  {
  }

  /** A space starts a new, so far empty, piece. */
  lemma SplitSpace(s: string, ws: seq<string>)
    requires |s| > 0 && s[0] == ' ' && Split(s[1..], ' ') == ws
    ensures Split(s, ' ') == [""] + ws
  {
  }

  lemma InitialsTwoWords()
    ensures Initials("al b") == "AB"
  {
    assert "b"[1..] == "";
    SplitLetter("b", "", []);
    assert " b"[1..] == "b" && ['b'] + "" == "b";
    SplitSpace(" b", ["b"]);
    assert "l b"[1..] == " b";
    SplitLetter("l b", "", ["b"]);
    assert "al b"[1..] == "l b" && ['l'] + "" == "l";
    SplitLetter("al b", "l", ["b"]);
    assert ['a'] + "l" == "al";
    assert Split("al b", ' ') == ["al", "b"];
  }

  /** Repeated and leading spaces add no letter, and only two are kept. */
  lemma InitialsSkipEmptyWords()
    ensures Initials(" a  b c") == "AB"
  {
    SplitSpacedName();
    SpacedNameLetters();
    assert Upper("abc")[..2] == "AB" by {
      assert UpperChar('a') == 'A' && UpperChar('b') == 'B';
    }
  }

  lemma SpacedNameLetters()
    ensures FirstLetters(["", "a", "", "b", "c"]) == "abc"
  {
    var ws := ["", "a", "", "b", "c"];
    assert ws[1..][1..][1..][1..][1..] == [];
    assert FirstLetters(ws[1..][1..][1..][1..]) == "c";
    assert FirstLetters(ws[1..][1..][1..]) == "bc";
    assert FirstLetters(ws[1..][1..]) == "bc";
    assert FirstLetters(ws[1..]) == "abc";
  }

  lemma SplitSpacedName()
    ensures Split(" a  b c", ' ') == ["", "a", "", "b", "c"]
  {
    var s := " a  b c";
    assert s[6..] == "c" && s[7..] == "";
    SplitLetter(s[6..], "", []);
    assert ['c'] + "" == "c";
    SplitSpace(s[5..], ["c"]);
    SplitLetter(s[4..], "", ["c"]);
    assert ['b'] + "" == "b";
    SplitSpace(s[3..], ["b", "c"]);
    SplitSpace(s[2..], ["", "b", "c"]);
    SplitLetter(s[1..], "", ["", "b", "c"]);
    assert ['a'] + "" == "a";
    SplitSpace(s, ["a", "", "b", "c"]);
  }

  /** A name made only of spaces gives no initials at all. */
  lemma InitialsOfBlankName()
    ensures Initials(" ") == ""
  {
    assert " "[1..] == "";
    SplitSpace(" ", [""]);
  }

  /** The e-mail fallback: the first two characters of the address, or of
      "User" when there is no address, upper-cased. */
  function EmailInitials(email: Option<string>): (r: string)
    ensures |r| <= 2
    ensures email.None? || email.value == "" ==> r == "US"
    ensures email.Some? && |email.value| >= 2 ==> r == Upper(email.value[..2])
    ensures email.Some? && |email.value| == 1 ==> r == Upper(email.value)
  {
    var source := if email.None? || email.value == "" then "User" else email.value;
    Upper(Prefix(source, 2))
  }

  class HeaderState {
    var userName: Option<string>
    var userInitials: string

    constructor ()
      ensures userName == None && userInitials == "U"
    {
      userName := None;
      userInitials := "U";
    }

    /** fetchUserProfile: `signedIn` says whether there is a user, `email` is
        their address, `fullName` the profile's full name (None when there is
        no profile or no name). With no user nothing changes. */
    method FetchUserProfile(signedIn: bool, email: Option<string>, fullName: Option<string>)
      modifies this
      ensures !signedIn ==> userName == old(userName) && userInitials == old(userInitials)
      ensures signedIn && fullName.Some? && fullName.value != "" ==>
        userName == fullName && userInitials == Initials(fullName.value)
      ensures signedIn && (fullName.None? || fullName.value == "") ==>
        userName == old(userName) && userInitials == EmailInitials(email)
      ensures |userInitials| <= 2 || userInitials == old(userInitials)
    {
      if signedIn {
        if fullName.Some? && fullName.value != "" {
          userName := fullName;
          userInitials := Initials(fullName.value);
        } else {
          userInitials := EmailInitials(email);
        }
      }
    }
  }
}
