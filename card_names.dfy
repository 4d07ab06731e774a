/** The name normalisation the vision system applies to template file
    names when loading them and to card names when looking them up:
    `name.replace('_', ' ').title()`. Case mapping is modelled for ASCII
    letters. */
module CardNames {

  predicate IsUpper(c: char) { 'A' <= c <= 'Z' }
  predicate IsLower(c: char) { 'a' <= c <= 'z' }

  /** A letter that has an upper- and a lower-case form. */
  predicate IsCased(c: char) { IsUpper(c) || IsLower(c) }

  function Upper(c: char): (u: char)
    ensures IsCased(u) == IsCased(c)
  {
    if IsLower(c) then c - 'a' + 'A' else c
  }

  function Lower(c: char): (l: char)
    ensures IsCased(l) == IsCased(c)
  {
    if IsUpper(c) then c - 'A' + 'a' else c
  }

  /** `str.title()` continued after a character that was cased or not:
      each character is lower-cased when the character before it in the
      input is cased, and upper-cased otherwise. */
  function TitleFrom(s: string, previousCased: bool): (r: string)
    ensures |r| == |s|
  {
    if s == [] then []
    else [if previousCased then Lower(s[0]) else Upper(s[0])]
         + TitleFrom(s[1..], IsCased(s[0]))
  }


  /** The characterisation of title case, position by position: a
      character starts a word (and is upper-cased) exactly when it is the
      first one or follows an uncased character. */
  lemma {:induction false} TitleFromAt(s: string, previousCased: bool, i: nat)
    requires i < |s|
    ensures TitleFrom(s, previousCased)[i] ==
      if (if i == 0 then previousCased else IsCased(s[i - 1])) then Lower(s[i]) else Upper(s[i])
  {
    if i > 0 {
      TitleFromAt(s[1..], IsCased(s[0]), i - 1);
    }
  }

  /** The character title case puts at position i of s. */
  function TitleChar(s: string, i: nat): char
    requires i < |s|
  {
    if i > 0 && IsCased(s[i - 1]) then Lower(s[i]) else Upper(s[i])
  }

  lemma TitleFromEverywhere(s: string, previousCased: bool)
    ensures forall i :: 0 <= i < |s| ==>
      TitleFrom(s, previousCased)[i] ==
        (if (if i == 0 then previousCased else IsCased(s[i - 1])) then Lower(s[i]) else Upper(s[i]))
  {
    forall i | 0 <= i < |s| {
      TitleFromAt(s, previousCased, i);
    }
  }

  /** `str.title()`: each character is upper-cased when it starts a word
      (it is the first one or follows an uncased character) and
      lower-cased otherwise. */
  function Title(s: string): (r: string)
    ensures |r| == |s|
    ensures forall i :: 0 <= i < |s| ==> r[i] == TitleChar(s, i)
  {
    TitleFromEverywhere(s, false);
    TitleFrom(s, false)
  }

  /** `str.replace('_', ' ')`. */
  function ReplaceUnderscores(s: string): (r: string)
    ensures |r| == |s|
    ensures forall i :: 0 <= i < |s| ==> r[i] == if s[i] == '_' then ' ' else s[i]
  {
    seq(|s|, i requires 0 <= i < |s| => if s[i] == '_' then ' ' else s[i])
  }

  /** The template key of a card name (vision/vision_system.py lines 95,
      160 and 436). */
  function NormalizeName(s: string): (r: string)
    ensures |r| == |s|
    ensures forall i :: 0 <= i < |s| ==> r[i] == TitleChar(ReplaceUnderscores(s), i)
  {
    Title(ReplaceUnderscores(s))
  }

  /** Title-casing an already title-cased string changes nothing. */
  lemma {:induction false} TitleFromIdempotent(s: string, previousCased: bool)
    ensures TitleFrom(TitleFrom(s, previousCased), previousCased) == TitleFrom(s, previousCased)
  {
    if s != [] {
      var t := TitleFrom(s, previousCased);
      TitleFromIdempotent(s[1..], IsCased(s[0]));
      assert t[1..] == TitleFrom(s[1..], IsCased(s[0]));
      assert IsCased(t[0]) == IsCased(s[0]);
    }
  }

  /** A normalised name has no underscore, and normalising it again gives
      it back: a key stored under its normalised file name is found again
      when looked up by that same key. */
  lemma NormalizeNameIsCanonical(s: string)
    ensures '_' !in NormalizeName(s)
    ensures NormalizeName(NormalizeName(s)) == NormalizeName(s)
  {
    var u := ReplaceUnderscores(s);
    var n := Title(u);
    assert forall i :: 0 <= i < |n| ==> n[i] != '_';
    assert ReplaceUnderscores(n) == n;
    TitleFromIdempotent(u, false);
  }

  /** Two strings that differ only in letter case and in '_' versus ' '
      name the same template. */
  lemma NormalizeNameIgnoresCaseAndSeparators(s: string, t: string)
    requires |s| == |t|
    requires forall i :: 0 <= i < |s| ==>
      Lower(ReplaceUnderscores(s)[i]) == Lower(ReplaceUnderscores(t)[i])
    ensures NormalizeName(s) == NormalizeName(t)
  {
    var u, v := ReplaceUnderscores(s), ReplaceUnderscores(t);
    forall i | 0 <= i < |s| ensures Title(u)[i] == Title(v)[i] {
      SameLetterUpToCase(u[i], v[i]);
      if i > 0 {
        SameLetterUpToCase(u[i - 1], v[i - 1]);
      }
    }
  }

  lemma SameLetterUpToCase(a: char, b: char)
    requires Lower(a) == Lower(b)
    ensures Upper(a) == Upper(b) && IsCased(a) == IsCased(b)
  {
  }

  /** The card file names of the game come out as the cost table spells
      them. */
  lemma NormalizedCardNames()
    ensures NormalizeName("mini_pekka") == "Mini Pekka"
    ensures NormalizeName("spear_goblins") == "Spear Goblins"
    ensures NormalizeName("KNIGHT") == "Knight"
  {
    MiniPekkaName();
    SpearGoblinsName();
    KnightName();
  }

  lemma MiniPekkaName()
    ensures NormalizeName("mini_pekka") == "Mini Pekka"
  {
    NormalizesTo("mini_pekka", "Mini Pekka");
  }

  lemma SpearGoblinsName()
    ensures NormalizeName("spear_goblins") == "Spear Goblins"
  {
    NormalizesTo("spear_goblins", "Spear Goblins");
  }

  lemma KnightName()
    ensures NormalizeName("KNIGHT") == "Knight"
  {
    NormalizesTo("KNIGHT", "Knight");
  }

  lemma NormalizesTo(s: string, expected: string)
    requires |s| == |expected|
    requires forall i :: 0 <= i < |s| ==> expected[i] == TitleChar(ReplaceUnderscores(s), i)
    ensures NormalizeName(s) == expected
  {
    assert forall i :: 0 <= i < |s| ==> NormalizeName(s)[i] == expected[i];
  }
}
