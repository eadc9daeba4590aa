/**
 Product slugs: slugify of helpers.py (on ASCII text) and the search loop of create_product.
 */
module Slugs {
  import opened Text
  import opened Wrappers
  import Decimal

  const MAX_SLUG: nat := 200

  // ---- slugify ----

  predicate IsAlnum(c: char) {
    'a' <= c <= 'z' || 'A' <= c <= 'Z' || '0' <= c <= '9'
  }

  /** [\s_-] */
  predicate IsSeparator(c: char) {
    IsSpace(c) || c == '_' || c == '-'
  }

  /** re.sub(r"[^\w\s-]", "", s) */
  function Keep(s: string): string {
    if s == [] then []
    else
      var c := s[|s| - 1];
      var front := Keep(s[..|s| - 1]);
      if IsAlnum(c) || IsSeparator(c) then front + [c] else front
  }

  /** re.sub(r"[\s_-]+", "-", s) */
  function Collapse(s: string): string {
    if s == [] then []
    else
      var c := s[|s| - 1];
      var front := Collapse(s[..|s| - 1]);
      if !IsSeparator(c) then front + [c]
      else if front != [] && front[|front| - 1] == '-' then front
      else front + ['-']
  }

  predicate IsHyphen(c: char) {
    c == '-'
  }

  /** Everything but the cut at 200 characters. */
  function Uncut(s: string): string {
    Strip(Collapse(Keep(Strip(Lower(s), IsSpace))), IsHyphen)
  }

  function Slugify(s: string): string {
    var t := Uncut(s);
    if |t| <= MAX_SLUG then t else t[..MAX_SLUG]
  }

  predicate IsSlugChar(c: char) {
    'a' <= c <= 'z' || '0' <= c <= '9' || c == '-'
  }

  /** Lower-case letters, digits and single hyphens. */
  predicate Hyphenated(s: string) {
    s == [] ||
    var n := |s| - 1;
    && Hyphenated(s[..n])
    && IsSlugChar(s[n])
    && (s[n] == '-' && n > 0 ==> s[n - 1] != '-')
  }

  /** What the regular expressions leave of lower-case text: separators, letters and digits. */
  predicate Plain(s: string) {
    s == [] ||
    var n := |s| - 1;
    Plain(s[..n]) && (IsSeparator(s[n]) || (IsAlnum(s[n]) && LowerChar(s[n]) == s[n]))
  }

  lemma {:induction false} KeepForm(s: string)
    requires forall i :: 0 <= i < |s| ==> LowerChar(s[i]) == s[i]
    ensures Plain(Keep(s))
  {
    if s != [] {
      var n := |s| - 1;
      KeepForm(s[..n]);
      if IsAlnum(s[n]) || IsSeparator(s[n]) {
        assert Keep(s)[..|Keep(s)| - 1] == Keep(s[..n]);
      }
    }
  }

  lemma {:induction false} CollapseForm(s: string)
    requires Plain(s)
    ensures Hyphenated(Collapse(s))
  {
    if s != [] {
      var front := Collapse(s[..|s| - 1]);
      CollapseForm(s[..|s| - 1]);
      if Collapse(s) != front {
        assert Collapse(s)[..|front|] == front;
      }
    }
  }

  lemma {:induction false} PrefixHyphenated(s: string, k: nat)
    requires Hyphenated(s) && k <= |s|
    ensures Hyphenated(s[..k])
  {
    if k < |s| {
      PrefixHyphenated(s[..|s| - 1], k);
      assert s[..|s| - 1][..k] == s[..k];
    } else {
      assert s[..k] == s;
    }
  }

  lemma {:induction false} TailHyphenated(s: string)
    requires Hyphenated(s) && s != []
    ensures Hyphenated(s[1..])
  {
    if |s| > 1 {
      TailHyphenated(s[..|s| - 1]);
      assert s[1..][..|s| - 2] == s[..|s| - 1][1..];
    }
  }

  lemma {:induction false} StripLeftHyphenated(s: string)
    requires Hyphenated(s)
    ensures Hyphenated(StripLeft(s, IsHyphen))
  {
    if s != [] && IsHyphen(s[0]) {
      TailHyphenated(s);
      StripLeftHyphenated(s[1..]);
    }
  }

  lemma StripHyphenated(c: string)
    requires Hyphenated(c)
    ensures Hyphenated(Strip(c, IsHyphen)) && (Strip(c, IsHyphen) != [] ==> Strip(c, IsHyphen)[0] != '-')
  {
    StripLeftHyphenated(c);
    var l := StripLeft(c, IsHyphen);
    StripLeftKeeps(c, IsHyphen);
    StripRightKeeps(l, IsHyphen);
    PrefixHyphenated(l, |StripRight(l, IsHyphen)|);
  }

  /** Strip(Lower(s)) holds lower-case characters only. */
  lemma StrippedIsLower(s: string)
    ensures var a := Strip(Lower(s), IsSpace);
            forall i :: 0 <= i < |a| ==> LowerChar(a[i]) == a[i]
  {
    var l := StripLeft(Lower(s), IsSpace);
    var a := StripRight(l, IsSpace);
    StripLeftKeeps(Lower(s), IsSpace);
    StripRightKeeps(l, IsSpace);
    forall i | 0 <= i < |a|
      ensures LowerChar(a[i]) == a[i]
    {
      assert a[i] == l[i] == Lower(s)[|s| - |l| + i];
    }
  }

  /** A slug has at most 200 characters, is hyphenated, and never starts with a hyphen. */
  lemma SlugifyForm(s: string)
    ensures Hyphenated(Slugify(s)) && |Slugify(s)| <= MAX_SLUG
    ensures Slugify(s) != [] ==> Slugify(s)[0] != '-'
  {
    var a := Strip(Lower(s), IsSpace);
    StrippedIsLower(s);
    KeepForm(a);
    CollapseForm(Keep(a));
    StripHyphenated(Collapse(Keep(a)));
    if |Uncut(s)| > MAX_SLUG {
      PrefixHyphenated(Uncut(s), MAX_SLUG);
    }
  }

  // ---- slugs as words joined by hyphens ----

  /** The maximal runs of characters that are not separators. */
  function WordsIn(s: string): (r: seq<string>)
    ensures s != [] && !IsSeparator(s[|s| - 1]) ==> r != []
  {
    if s == [] then []
    else
      var n, words := |s| - 1, WordsIn(s[..|s| - 1]);
      if IsSeparator(s[n]) then words
      else if n > 0 && !IsSeparator(s[n - 1]) then words[..|words| - 1] + [words[|words| - 1] + [s[n]]]
      else words + [[s[n]]]
  }

  function Join(words: seq<string>): string {
    if words == [] then ""
    else if |words| == 1 then words[0]
    else Join(words[..|words| - 1]) + "-" + words[|words| - 1]
  }

  lemma {:induction false} StripLeftSnoc(s: string, c: char)
    ensures var l := StripLeft(s, IsHyphen);
            StripLeft(s + [c], IsHyphen) == if l == [] && c == '-' then [] else l + [c]
  {
    var t := s + [c];
    if s == [] {
      assert t[1..] == [];
      assert StripLeft([], IsHyphen) == [];
    } else {
      if s[0] == '-' {
        StripLeftSnoc(s[1..], c);
        assert t[1..] == s[1..] + [c];
      }
    }
  }

  /** The hyphen Collapse leaves behind the last word when the text ends in a separator. */
  function Tail(s: string): string {
    if WordsIn(s) != [] && IsSeparator(s[|s| - 1]) then "-" else ""
  }

  lemma {:induction false} NoEmptyWords(s: string)
    ensures forall i :: 0 <= i < |WordsIn(s)| ==>
              WordsIn(s)[i] != "" && !IsSeparator(WordsIn(s)[i][|WordsIn(s)[i]| - 1])
  {
    if s != [] {
      NoEmptyWords(s[..|s| - 1]);
    }
  }

  lemma JoinEnds(words: seq<string>)
    requires forall i :: 0 <= i < |words| ==> words[i] != "" && !IsSeparator(words[i][|words[i]| - 1])
    ensures words != [] ==> Join(words) != "" && !IsSeparator(Join(words)[|Join(words)| - 1])
  {
    if words != [] {
      assert words[|words| - 1] != "";
    }
  }

  lemma ConcatSnoc(a: string, b: string, c: char)
    ensures a + (b + [c]) == (a + b) + [c]
  {
  }

  lemma JoinExtend(words: seq<string>, c: char)
    requires words != []
    ensures Join(words[..|words| - 1] + [words[|words| - 1] + [c]]) == Join(words) + [c]
  {
    var front, word := words[..|words| - 1], words[|words| - 1];
    assert words == front + [word];
    hide Join;
    JoinMore(front, word);
    JoinMore(front, word + [c]);
    ConcatSnoc(Join(front) + "-", word, c);
  }

  lemma JoinMore(words: seq<string>, word: string)
    ensures Join(words + [word]) == if words == [] then word else Join(words) + "-" + word
  {
    assert (words + [word])[..|words|] == words;
  }

  lemma {:induction false} CollapseEnds(s: string)
    ensures s != [] && IsSeparator(s[|s| - 1]) <==> Collapse(s) != [] && Collapse(s)[|Collapse(s)| - 1] == '-'
  {
  }

  lemma WordContinues(s: string)
    requires |s| > 1 && !IsSeparator(s[|s| - 1]) && !IsSeparator(s[|s| - 2])
    ensures var words := WordsIn(s[..|s| - 1]);
            Tail(s[..|s| - 1]) == "" && words != []
            && WordsIn(s) == words[..|words| - 1] + [words[|words| - 1] + [s[|s| - 1]]]
  {
    assert s[..|s| - 1][|s| - 2] == s[|s| - 2];
  }

  lemma WordBegins(s: string)
    requires s != [] && !IsSeparator(s[|s| - 1]) && (|s| > 1 ==> IsSeparator(s[|s| - 2]))
    ensures var words := WordsIn(s[..|s| - 1]);
            Tail(s[..|s| - 1]) == (if words == [] then "" else "-") && WordsIn(s) == words + [[s[|s| - 1]]]
  {
    if |s| > 1 {
      assert s[..|s| - 1][|s| - 2] == s[|s| - 2];
    } else {
      assert s[..0] == [] && WordsIn([]) == [];
    }
  }

  lemma HyphenSeparates(c: char)
    ensures !IsSeparator(c) ==> c != '-'
  {
  }

  lemma JoinNone()
    ensures Join([]) == ""
  {
  }

  lemma CollapseWord(s: string, front: string, words: seq<string>)
    requires s != [] && !IsSeparator(s[|s| - 1])
    requires words == WordsIn(s[..|s| - 1])
    requires StripLeft(front, IsHyphen) == Join(words) + Tail(s[..|s| - 1])
    ensures StripLeft(front + [s[|s| - 1]], IsHyphen) == Join(WordsIn(s))
  {
    hide *;
    var n, c := |s| - 1, s[|s| - 1];
    HyphenSeparates(c);
    JoinNone();
    StripLeftSnoc(front, c);
    if n > 0 && !IsSeparator(s[n - 1]) {
      WordContinues(s);
      JoinExtend(words, c);
    } else {
      WordBegins(s);
      JoinMore(words, [c]);
    }
  }

  lemma CollapseSeparator(s: string, front: string, words: seq<string>)
    requires s != [] && IsSeparator(s[|s| - 1])
    requires words == WordsIn(s[..|s| - 1])
    requires StripLeft(front, IsHyphen) == Join(words) + Tail(s[..|s| - 1])
    requires |s| > 1 ==> !IsSeparator(s[|s| - 2])
    ensures StripLeft(front + "-", IsHyphen) == Join(words) + Tail(s)
  {
    StripLeftSnoc(front, '-');
    NoEmptyWords(s[..|s| - 1]);
    JoinEnds(words);
    hide StripLeft;
  }

  /** Collapse keeps exactly the words, one hyphen between two of them. */
  lemma {:induction false} CollapseJoins(s: string)
    ensures StripLeft(Collapse(s), IsHyphen) == Join(WordsIn(s)) + Tail(s)
  {
    if s != [] {
      var n := |s| - 1;
      var front, words := Collapse(s[..n]), WordsIn(s[..n]);
      CollapseJoins(s[..n]);
      CollapseEnds(s[..n]);
      if !IsSeparator(s[n]) {
        CollapseWord(s, front, words);
      } else if front == [] || front[|front| - 1] != '-' {
        CollapseSeparator(s, front, words);
      }
    }
  }

  lemma StripRightSnoc(s: string)
    requires s == [] || s[|s| - 1] != '-'
    ensures StripRight(s + "-", IsHyphen) == s == StripRight(s, IsHyphen)
  {
    assert (s + "-")[..|s|] == s;
  }

  lemma StripJoins(s: string)
    ensures Strip(Collapse(s), IsHyphen) == Join(WordsIn(s))
  {
    CollapseJoins(s);
    NoEmptyWords(s);
    JoinEnds(WordsIn(s));
    StripRightSnoc(Join(WordsIn(s)));
  }

  lemma WordsSnoc(front: string, d: char)
    ensures var words := WordsIn(front);
            WordsIn(front + [d]) ==
            if IsSeparator(d) then words
            else if front != [] && !IsSeparator(front[|front| - 1]) then
              words[..|words| - 1] + [words[|words| - 1] + [d]]
            else words + [[d]]
  {
    assert (front + [d])[..|front|] == front;
  }

  /** The last characters decide the words, so what comes before a separator in front makes no difference. */
  lemma WordsSnocAlike(front: string, other: string, d: char)
    requires WordsIn(front) == WordsIn(other)
    requires front != [] && !IsSeparator(front[|front| - 1]) <==> other != [] && !IsSeparator(other[|other| - 1])
    ensures WordsIn(front + [d]) == WordsIn(other + [d])
  {
    WordsSnoc(front, d);
    WordsSnoc(other, d);
    hide *;
  }

  /** Outer spaces make no difference to the words. */
  lemma {:induction false} WordsAfterSeparator(c: char, s: string)
    requires IsSeparator(c)
    ensures WordsIn([c] + s) == WordsIn(s)
  {
    hide *;
    if s == [] {
      assert [c] + s == [] + [c];
      NoWords(c);
    } else {
      var front, d := s[..|s| - 1], s[|s| - 1];
      WordsAfterSeparator(c, front);
      assert s == front + [d] && [c] + s == ([c] + front) + [d];
      WordsSnocAlike([c] + front, front, d);
    }
  }

  lemma NoWords(c: char)
    requires IsSeparator(c)
    ensures WordsIn([] + [c]) == WordsIn([])
  {
    WordsSnoc([], c);
  }

  lemma {:induction false} KeepAfterSpace(c: char, s: string)
    requires IsSpace(c)
    ensures Keep([c] + s) == [c] + Keep(s)
  {
    var n := |s| - 1;
    if s == [] {
      assert ([c] + s)[..0] == [];
    } else {
      KeepAfterSpace(c, s[..n]);
      assert ([c] + s)[..n + 1] == [c] + s[..n];
    }
  }

  lemma {:induction false} WordsOfStripLeft(s: string)
    ensures WordsIn(Keep(StripLeft(s, IsSpace))) == WordsIn(Keep(s))
  {
    if s != [] && IsSpace(s[0]) {
      WordsOfStripLeft(s[1..]);
      assert s == [s[0]] + s[1..];
      KeepAfterSpace(s[0], s[1..]);
      WordsAfterSeparator(s[0], Keep(s[1..]));
    }
  }

  lemma {:induction false} WordsOfStripRight(s: string)
    ensures WordsIn(Keep(StripRight(s, IsSpace))) == WordsIn(Keep(s))
  {
    if s != [] && IsSpace(s[|s| - 1]) {
      WordsOfStripRight(s[..|s| - 1]);
      assert Keep(s)[..|Keep(s)| - 1] == Keep(s[..|s| - 1]);
    }
  }

  /**
   A slug is the text's words, in lower case and without other characters, joined by single
   hyphens and cut at 200 characters.
   */
  lemma SlugifyJoinsWords(s: string)
    ensures var joined := Join(WordsIn(Keep(Lower(s))));
            Slugify(s) == if |joined| <= 200 then joined else joined[..200]
  {
    WordsOfStripLeft(Lower(s));
    WordsOfStripRight(StripLeft(Lower(s), IsSpace));
    StripJoins(Keep(Strip(Lower(s), IsSpace)));
  }

  // ---- what a character is ----

  /** Which characters part words, which are kept after a text, and which vanish. */
  lemma CharacterClasses(front: string, c: char)
    ensures IsSeparator(c) <==> c in {' ', '_', '-'} || '\t' <= c <= '\r' || '\U{1c}' <= c <= '\U{1f}'
    ensures IsAlnum(c) <==> '0' <= c <= '9' || 'a' <= c <= 'z' || 'A' <= c <= 'Z'
    ensures Keep(front + [c]) == Keep(front) + if IsSeparator(c) || IsAlnum(c) then [c] else []
  {
    assert (front + [c])[..|front|] == front;
  }

  /** For instance, "A_ b!" becomes "a-b". */
  lemma SlugOfExample()
    ensures Slugify("A_ b!") == "a-b"
  {
    assert Lower("A_ b!") == "a_ b!";
    KeptExample();
    WordsOfExample();
    JoinOfExample();
    hide *;
    SlugifyJoinsWords("A_ b!");
    assert |"a-b"| <= 200;
  }

  lemma {:induction false} AllKept(s: string)
    requires forall i :: 0 <= i < |s| ==> IsAlnum(s[i]) || IsSeparator(s[i])
    ensures Keep(s) == s
  {
    if s != [] {
      AllKept(s[..|s| - 1]);
      assert s[..|s| - 1] + [s[|s| - 1]] == s;
    }
  }

  lemma KeptExample()
    ensures Keep("a_ b!") == "a_ b"
  {
    AllKept("a_ b");
    CharacterClasses("a_ b", '!');
    assert "a_ b" + ['!'] == "a_ b!";
    hide *;
  }

  lemma WordsOfExample()
    ensures WordsIn("a_ b") == ["a", "b"]
  {
    assert WordsIn("") == [];
    hide WordsIn;
    WordsSnoc("", 'a');
    assert "" + ['a'] == "a" && WordsIn("a") == ["a"];
    WordsSnoc("a", '_');
    assert "a" + ['_'] == "a_";
    WordsSnoc("a_", ' ');
    assert "a_" + [' '] == "a_ ";
    WordsSnoc("a_ ", 'b');
    assert "a_ " + ['b'] == "a_ b";
  }

  lemma JoinOfExample()
    ensures Join(["a", "b"]) == "a-b"
  {
    JoinMore([], "a");
    JoinMore(["a"], "b");
    assert [] + ["a"] == ["a"] && ["a"] + ["b"] == ["a", "b"];
  }

  // ---- slugify again ----

  lemma {:induction false} KeepNothingToDrop(s: string)
    requires Hyphenated(s)
    ensures Keep(s) == s
  {
    if s != [] {
      KeepNothingToDrop(s[..|s| - 1]);
      assert s[..|s| - 1] + [s[|s| - 1]] == s;
    }
  }

  lemma {:induction false} CollapseNothing(s: string)
    requires Hyphenated(s)
    ensures Collapse(s) == s
  {
    if s != [] {
      CollapseNothing(s[..|s| - 1]);
      assert s[..|s| - 1] + [s[|s| - 1]] == s;
    }
  }

  lemma {:induction false} NoCapitals(s: string)
    requires Hyphenated(s)
    ensures Lower(s) == s
  {
    if s != [] {
      NoCapitals(s[..|s| - 1]);
      assert Lower(s)[..|s| - 1] == Lower(s[..|s| - 1]);
    }
  }

  lemma {:induction false} FirstIsSlugChar(s: string)
    requires Hyphenated(s) && s != []
    ensures IsSlugChar(s[0]) && IsSlugChar(s[|s| - 1])
  {
    if |s| > 1 {
      FirstIsSlugChar(s[..|s| - 1]);
    }
  }

  lemma NoSpaces(s: string)
    requires Hyphenated(s)
    ensures Lower(s) == s && Strip(s, IsSpace) == s
  {
    NoCapitals(s);
    if s != [] {
      FirstIsSlugChar(s);
      hide Hyphenated;
    }
  }

  lemma UncutAgain(t: string)
    requires Hyphenated(t) && (t != [] ==> t[0] != '-')
    ensures Uncut(t) == StripRight(t, IsHyphen)
  {
    NoSpaces(t);
    KeepNothingToDrop(t);
    CollapseNothing(t);
    assert StripLeft(t, IsHyphen) == t;
    hide Hyphenated, Lower, Keep, Collapse, StripLeft, StripRight;
  }

  /**
   Slugs are fixed points of slugify, except when the cut at 200 characters left a hyphen at
   the end: the hyphens are stripped before the cut, so a second pass drops it.
   */
  lemma SlugifyAgainIff(s: string)
    ensures var t := Slugify(s);
            Slugify(t) == t <==> t == [] || t[|t| - 1] != '-'
  {
    var t := Slugify(s);
    SlugifyForm(s);
    UncutAgain(t);
    StripRightKeeps(t, IsHyphen);
    assert t == [] || t[|t| - 1] != '-' ==> StripRight(t, IsHyphen) == t;
    hide Uncut, Hyphenated, StripRight;
    assert Slugify(t) == Uncut(t);
  }

  function Repeat(n: nat): (r: string)
    ensures |r| == n
  {
    if n == 0 then "" else Repeat(n - 1) + "a"
  }

  lemma {:induction false} RepeatForm(n: nat)
    ensures Hyphenated(Repeat(n)) && (n > 0 ==> Repeat(n)[0] == 'a' == Repeat(n)[n - 1])
  {
    if n > 0 {
      RepeatForm(n - 1);
      assert Repeat(n)[..n - 1] == Repeat(n - 1);
    }
  }

  lemma HyphenatedSnoc(front: string, c: char)
    requires Hyphenated(front) && IsSlugChar(c) && (c == '-' && front != [] ==> front[|front| - 1] != '-')
    ensures Hyphenated(front + [c])
  {
    assert (front + [c])[..|front|] == front;
  }

  /** A hyphenated text of 201 characters: its slug is cut to 200. */
  lemma CutSlug(s: string)
    requires Hyphenated(s) && |s| == MAX_SLUG + 1 && s[0] != '-' && s[|s| - 1] != '-'
    ensures Slugify(s) == s[..MAX_SLUG]
  {
    UncutAgain(s);
    assert StripRight(s, IsHyphen) == s;
    hide Uncut, Hyphenated, StripRight;
  }

  /** A name whose slug ends in a hyphen: 199 letters, a hyphen and one more letter. */
  lemma CutLeavesHyphen()
    ensures var t := Slugify(Repeat(199) + "-b");
            t == Repeat(199) + "-" && Slugify(t) != t
  {
    var head := Repeat(199);
    var cut := head + ['-'];
    RepeatForm(199);
    hide Repeat, Hyphenated, Slugify;
    HyphenatedSnoc(head, '-');
    HyphenatedSnoc(cut, 'b');
    assert head + "-b" == cut + ['b'] && (cut + ['b'])[..200] == cut;
    CutSlug(cut + ['b']);
    SlugifyAgainIff(cut + ['b']);
  }

  // ---- the search ----

  /** The k-th name the loop tries. */
  function Candidate(base: string, k: nat): string {
    if k == 0 then base else base + "-" + Decimal.Numeral(k)
  }

  lemma CandidateInjective(base: string, j: nat, k: nat)
    requires Candidate(base, j) == Candidate(base, k)
    ensures j == k
  {
    if j > 0 && k > 0 {
      assert Candidate(base, j)[|base| + 1..] == Decimal.Numeral(j);
      assert Candidate(base, k)[|base| + 1..] == Decimal.Numeral(k);
      Decimal.NumeralInjective(j, k);
    }
  }

  /** k distinct taken names need at least k taken slugs. */
  lemma {:induction false} Pigeonhole(taken: set<string>, base: string, k: nat)
    requires forall j :: 0 <= j < k ==> Candidate(base, j) in taken
    ensures k <= |taken|
  {
    if k > 0 {
      var last := Candidate(base, k - 1);
      forall j | 0 <= j < k - 1
        ensures Candidate(base, j) in taken - {last}
      {
        if Candidate(base, j) == last {
          CandidateInjective(base, j, k - 1);
        }
      }
      Pigeonhole(taken - {last}, base, k - 1);
    }
  }

  datatype Product = Product(name: string, slug: string)

  function Slugs(products: seq<Product>): (r: set<string>)
    ensures forall s :: s in r <==> exists i :: 0 <= i < |products| && products[i].slug == s
  {
    set p | p in products :: p.slug
  }

  lemma {:induction false} FewerSlugsThanProducts(products: seq<Product>)
    ensures |Slugs(products)| <= |products|
  {
    if products != [] {
      var front, last := products[..|products| - 1], products[|products| - 1];
      assert products == front + [last];
      FewerSlugsThanProducts(front);
      assert Slugs(products) == Slugs(front) + {last.slug};
    }
  }

  function Base(name: string): string {
    if Slugify(name) == "" then "product" else Slugify(name)
  }

  /** The search starts from the name's own slug, and from "product" when the name has none. */
  lemma BaseIs(name: string)
    ensures Slugify(name) != "" ==> Base(name) == Slugify(name)
    ensures Slugify(name) == "" ==> Base(name) == "product"
    ensures Candidate(Base(name), 0) == Base(name)
  {
    hide Slugify;
  }

  /** k is the number of the first free candidate. */
  ghost predicate FirstFree(products: seq<Product>, base: string, k: nat) {
    && Candidate(base, k) !in Slugs(products)
    && forall j :: 0 <= j < k ==> Candidate(base, j) in Slugs(products)
  }

  lemma FirstFreeUnique(products: seq<Product>, base: string, k: nat, l: nat)
    requires FirstFree(products, base, k) && FirstFree(products, base, l)
    ensures k == l
  {
  }

  ghost predicate DistinctSlugs(products: seq<Product>) {
    forall i, j :: 0 <= i < j < |products| ==> products[i].slug != products[j].slug
  }

  /** The while loop of create_product. */
  method SearchSlug(products: seq<Product>, base: string) returns (slug: string, ghost probes: nat)
    ensures 0 < probes <= |products| + 1
    ensures FirstFree(products, base, probes - 1) && slug == Candidate(base, probes - 1)
  {
    slug := base;
    var i: nat := 1;
    var taken := Slugs(products);
    while slug in taken
      invariant i >= 1 && slug == Candidate(base, i - 1)
      invariant forall j :: 0 <= j < i - 1 ==> Candidate(base, j) in taken
      decreases |taken| + 1 - i
    {
      Pigeonhole(taken, base, i);
      slug := base + "-" + Decimal.Numeral(i);
      i := i + 1;
    }
    probes := i;
    Pigeonhole(taken, base, i - 1);
    FewerSlugsThanProducts(products);
  }

  datatype Request = Create(name: string) | Duplicate(id: nat)

  /** The table with one more product, under the first free name. */
  ghost predicate Added(before: seq<Product>, name: string, after: seq<Product>) {
    exists k :: FirstFree(before, Base(name), k) && after == before + [Product(name, Candidate(Base(name), k))]
  }

  /** What the table looks like after a request. */
  ghost predicate Step(before: seq<Product>, e: Request, after: seq<Product>) {
    match e
    case Create(name) => Added(before, name, after)
    case Duplicate(id) => if id >= |before| then after == before else Added(before, before[id].name + " (Copy)", after)
  }

  lemma AddedIsUnique(before: seq<Product>, name: string, after: seq<Product>, other: seq<Product>)
    requires Added(before, name, after) && Added(before, name, other)
    ensures after == other
  {
    var k: nat :| FirstFree(before, Base(name), k) && after == before + [Product(name, Candidate(Base(name), k))];
    var l: nat :| FirstFree(before, Base(name), l) && other == before + [Product(name, Candidate(Base(name), l))];
    FirstFreeUnique(before, Base(name), k, l);
  }

  /** The old table and the request leave no choice. */
  lemma StepIsDetermined(before: seq<Product>, e: Request, after: seq<Product>, other: seq<Product>)
    requires Step(before, e, after) && Step(before, e, other)
    ensures after == other
  {
    match e
    case Create(name) => AddedIsUnique(before, name, after, other);
    case Duplicate(id) =>
      if id < |before| {
        AddedIsUnique(before, before[id].name + " (Copy)", after, other);
      }
  }

  class ProductTable {
    var products: seq<Product>

    constructor ()
      ensures products == [] && DistinctSlugs(products)
    {
      products := [];
    }

    /**
     create_product: takes the first free name in the order base, base-1, base-2, ..., within
     one probe more than there are products, and keeps slugs distinct.
     */
    method CreateProduct(name: string) returns (slug: string, ghost probes: nat)
      modifies this
      ensures products == old(products) + [Product(name, slug)]
      ensures 0 < probes <= |old(products)| + 1
      ensures FirstFree(old(products), Base(name), probes - 1) && slug == Candidate(Base(name), probes - 1)
      ensures Step(old(products), Create(name), products)
      ensures old(DistinctSlugs(products)) ==> DistinctSlugs(products)
    {
      var base := Slugify(name);
      if base == "" {
        base := "product";
      }
      slug, probes := SearchSlug(products, base);
      products := products + [Product(name, slug)];
    }

    method DuplicateProduct(id: nat) returns (outcome: Outcome)
      modifies this
      ensures outcome == if id < |old(products)| then Done else Refused(NotFound)
      ensures outcome != Done ==> products == old(products)
      ensures Step(old(products), Duplicate(id), products)
      ensures old(DistinctSlugs(products)) ==> DistinctSlugs(products)
    {
      if id >= |products| {
        return Refused(NotFound);
      }
      var _, _ := CreateProduct(products[id].name + " (Copy)");
      outcome := Done;
    }
  }

  // ---- over any sequence of creates and duplicates ----

  /** Slugs stay pairwise distinct along any run, given as its tables one after another. */
  lemma {:induction false} SlugsStayDistinct(tables: seq<seq<Product>>, es: seq<Request>)
    requires |tables| == |es| + 1 && DistinctSlugs(tables[0])
    requires forall i :: 0 <= i < |es| ==> Step(tables[i], es[i], tables[i + 1])
    ensures DistinctSlugs(tables[|es|])
  {
    if es != [] {
      var n := |es| - 1;
      SlugsStayDistinct(tables[..n + 1], es[..n]);
      assert Step(tables[n], es[n], tables[n + 1]);
    }
  }
}
