// src/helpers/classify.ts: turn a string into a slug.
module Slug {
  function Lower(c: char): char {
    if 'A' <= c <= 'Z' then (c as int + 32) as char else c
  }

  /** A capital becomes the small letter at the same place of the alphabet. */
  lemma LowerKeepsPlace(c: char)
    ensures 'A' <= c <= 'Z' ==>
      'a' <= Lower(c) <= 'z' && Lower(c) as int - 'a' as int == c as int - 'A' as int
    ensures !('A' <= c <= 'Z') ==> Lower(c) == c
  {}

  function LowerCase(s: string): string {
    if s == "" then "" else [Lower(s[0])] + LowerCase(s[1..])
  }

  predicate IsSpace(c: char) {
    c == ' ' || 9 <= c as int <= 13
  }

  /** `[\s/_.]` */
  predicate IsSeparator(c: char) {
    IsSpace(c) || c == '/' || c == '_' || c == '.'
  }

  /** `\w` without the underscore, which is a separator. */
  predicate IsAlphanumeric(c: char) {
    'a' <= c <= 'z' || 'A' <= c <= 'Z' || '0' <= c <= '9'
  }

  /** `[\w-]` */
  predicate IsKept(c: char) {
    IsAlphanumeric(c) || c == '_' || c == '-'
  }

  /** `replace(/[\s/_.]+/g, '-')`; `inRun` says that the character before belongs to the same match. */
  function ReplaceSeparators(s: string, inRun: bool): string {
    if s == "" then ""
    else if IsSeparator(s[0]) then
      (if inRun then "" else "-") + ReplaceSeparators(s[1..], true)
    else [s[0]] + ReplaceSeparators(s[1..], false)
  }

  /** `replace(/[^\w-]+/g, '')` */
  function DropJunk(s: string): string {
    if s == "" then ""
    else (if IsKept(s[0]) then [s[0]] else "") + DropJunk(s[1..])
  }

  /** `replace(/--+/g, '-')` */
  function CollapseDashes(s: string): string {
    if s == "" then ""
    else if s[0] == '-' && |s| > 1 && s[1] == '-' then CollapseDashes(s[1..])
    else [s[0]] + CollapseDashes(s[1..])
  }

  function TrimStart(s: string): string {
    if s != "" && s[0] == '-' then TrimStart(s[1..]) else s
  }

  function TrimEnd(s: string): string {
    if s != "" && s[|s| - 1] == '-' then TrimEnd(s[..|s| - 1]) else s
  }

  /** The pipeline without the fallback. */
  function Slugify(text: string): string {
    TrimEnd(TrimStart(CollapseDashes(DropJunk(ReplaceSeparators(LowerCase(text), false)))))
  }

  function Classify(text: string, fallback: string): string {
    var output := Slugify(text);
    if output != "" then output else fallback
  }

  // ---- The word specification ----

  // These predicates are about characters as such; the pipeline has its own above.

  /** Space, tab, line feed, vertical tab, form feed, carriage return, and four punctuation marks. */
  predicate IsSplit(c: char) {
    || c == ' ' || c == '\t' || c == '\n' || c as int == 11 || c as int == 12 || c == '\r'
    || c == '/' || c == '_' || c == '.' || c == '-'
  }

  /** Neither part of a word nor something that splits words. */
  predicate IsJunk(c: char) {
    !IsSplit(c) && !('0' <= c <= '9') && !('A' <= c <= 'Z') && !('a' <= c <= 'z')
  }

  function DeleteJunk(s: string): string {
    if s == "" then ""
    else if IsJunk(s[0]) then DeleteJunk(s[1..])
    else [s[0]] + DeleteJunk(s[1..])
  }

  function Split(s: string): (r: seq<string>)
    ensures r != []
  {
    if s == "" then [""]
    else
      var r := Split(s[1..]);
      if IsSplit(s[0]) then [""] + r else [[s[0]] + r[0]] + r[1..]
  }

  function NonEmpty(ws: seq<string>): seq<string> {
    if ws == [] then []
    else if ws[0] == "" then NonEmpty(ws[1..])
    else [ws[0]] + NonEmpty(ws[1..])
  }

  function Join(ws: seq<string>): string {
    if ws == [] then ""
    else if |ws| == 1 then ws[0]
    else ws[0] + "-" + Join(ws[1..])
  }

  /** The words of a text. */
  function Words(text: string): seq<string> {
    NonEmpty(Split(DeleteJunk(LowerCase(text))))
  }

  /** The words of `acc + s`, where `acc` has none of the characters that split. */
  function Scan(s: string, acc: string): seq<string> {
    if s == "" then Flush(acc)
    else if IsSplit(s[0]) then Flush(acc) + Scan(s[1..], "")
    else Scan(s[1..], acc + [s[0]])
  }

  function Flush(acc: string): seq<string> {
    if acc == "" then [] else [acc]
  }

  lemma {:induction false} ScanIsSplit(s: string, acc: string)
    ensures Scan(s, acc) == NonEmpty([acc + Split(s)[0]] + Split(s)[1..])
  {
    if s == "" {
      assert acc + "" == acc;
      assert [acc][1..] == [];
    } else {
      var r := Split(s[1..]);
      if IsSplit(s[0]) {
        ScanIsSplit(s[1..], "");
        assert "" + r[0] == r[0] && [r[0]] + r[1..] == r;
        assert ([""] + r)[1..] == r && acc + "" == acc;
        assert ([acc] + r)[1..] == r;
      } else {
        ScanIsSplit(s[1..], acc + [s[0]]);
        assert acc + [s[0]] + r[0] == acc + ([s[0]] + r[0]);
      }
    }
  }

  lemma WordsAreScanned(s: string)
    ensures Scan(s, "") == NonEmpty(Split(s))
  {
    ScanIsSplit(s, "");
    assert "" + Split(s)[0] == Split(s)[0];
    assert [Split(s)[0]] + Split(s)[1..] == Split(s);
  }

  // ---- The stages keep the words ----

  lemma {:induction false} SeparatorsKeepWords(s: string, inRun: bool, acc: string)
    requires inRun ==> acc == ""
    ensures Scan(DropJunk(ReplaceSeparators(s, inRun)), acc) == Scan(DeleteJunk(s), acc)
  {
    if s != "" {
      var c, t := s[0], s[1..];
      if IsSeparator(c) {
        SeparatorsKeepWords(t, true, "");
        var x := ReplaceSeparators(t, true);
        if inRun {
          assert "" + x == x;
        } else {
          assert (['-'] + x)[1..] == x;
          assert (['-'] + DropJunk(x))[1..] == DropJunk(x);
        }
        assert ([c] + DeleteJunk(t))[1..] == DeleteJunk(t);
      } else {
        var x := ReplaceSeparators(t, false);
        assert ([c] + x)[1..] == x;
        assert ([c] + DropJunk(x))[1..] == DropJunk(x);
        assert ([c] + DeleteJunk(t))[1..] == DeleteJunk(t);
        if c == '-' {
          SeparatorsKeepWords(t, false, "");
        } else if IsAlphanumeric(c) {
          SeparatorsKeepWords(t, false, acc + [c]);
        } else {
          SeparatorsKeepWords(t, false, acc);
          assert "" + DropJunk(x) == DropJunk(x);
        }
      }
    }
  }

  lemma {:induction false} CollapseKeepsWords(s: string, acc: string)
    ensures Scan(CollapseDashes(s), acc) == Scan(s, acc)
  {
    if s != "" {
      var t := s[1..];
      if s[0] == '-' && |s| > 1 && s[1] == '-' {
        CollapseKeepsWords(t, acc);
        assert t[0] == '-';
      } else {
        assert ([s[0]] + CollapseDashes(t))[1..] == CollapseDashes(t);
        CollapseKeepsWords(t, if IsSplit(s[0]) then "" else acc + [s[0]]);
      }
    }
  }

  lemma {:induction false} TrimStartKeepsWords(s: string)
    ensures Scan(TrimStart(s), "") == Scan(s, "")
  {
    if s != "" && s[0] == '-' {
      TrimStartKeepsWords(s[1..]);
    }
  }

  lemma {:induction false} LastDashAddsNothing(s: string, acc: string)
    ensures Scan(s + "-", acc) == Scan(s, acc)
  {
    if s == "" {
      assert (s + "-")[1..] == "";
    } else {
      assert (s + "-")[1..] == s[1..] + "-";
      LastDashAddsNothing(s[1..], if IsSplit(s[0]) then "" else acc + [s[0]]);
    }
  }

  lemma {:induction false} TrimEndKeepsWords(s: string)
    ensures Scan(TrimEnd(s), "") == Scan(s, "")
    decreases |s|
  {
    if s != "" && s[|s| - 1] == '-' {
      var t := s[..|s| - 1];
      TrimEndKeepsWords(t);
      LastDashAddsNothing(t, "");
      assert s == t + "-";
    }
  }

  // ---- The output is clean ----

  predicate IsSlugChar(c: char) {
    'a' <= c <= 'z' || '0' <= c <= '9' || c == '-'
  }

  predicate SlugChars(s: string) {
    forall i | 0 <= i < |s| :: IsSlugChar(s[i])
  }

  predicate NoDoubleDash(s: string) {
    forall i | 0 <= i < |s| - 1 :: s[i] != '-' || s[i + 1] != '-'
  }

  /** No dash at the start or end, and no two in a row. */
  predicate Clean(s: string) {
    && SlugChars(s) && NoDoubleDash(s)
    && (s != "" ==> s[0] != '-' && s[|s| - 1] != '-')
  }

  lemma {:induction false} LowerHasNoCapitals(s: string)
    ensures |LowerCase(s)| == |s|
    ensures forall i | 0 <= i < |s| :: LowerCase(s)[i] == Lower(s[i])
  {
    if s != "" {
      LowerHasNoCapitals(s[1..]);
    }
  }

  lemma {:induction false} ReplacedChars(s: string, inRun: bool)
    requires forall i | 0 <= i < |s| :: !('A' <= s[i] <= 'Z')
    ensures forall c | c in ReplaceSeparators(s, inRun) :: !IsSeparator(c) && !('A' <= c <= 'Z')
  {
    if s != "" {
      ReplacedChars(s[1..], IsSeparator(s[0]));
    }
  }

  lemma {:induction false} DroppedChars(s: string)
    requires forall c | c in s :: !IsSeparator(c) && !('A' <= c <= 'Z')
    ensures SlugChars(DropJunk(s))
  {
    if s != "" {
      assert s[0] in s;
      DroppedChars(s[1..]);
    }
  }

  lemma {:induction false} CollapsedIsClean(s: string)
    requires SlugChars(s)
    ensures var r := CollapseDashes(s);
      SlugChars(r) && NoDoubleDash(r) && (s == "" <==> r == "") && (s != "" ==> r[0] == s[0])
  {
    if s != "" {
      CollapsedIsClean(s[1..]);
    }
  }

  lemma {:induction false} TrimStartIsClean(s: string)
    requires SlugChars(s) && NoDoubleDash(s)
    ensures var r := TrimStart(s); SlugChars(r) && NoDoubleDash(r) && (r != "" ==> r[0] != '-')
  {}

  lemma {:induction false} TrimEndIsClean(s: string)
    requires SlugChars(s) && NoDoubleDash(s) && (s != "" ==> s[0] != '-')
    ensures Clean(TrimEnd(s))
    decreases |s|
  {}

  lemma SlugifyIsClean(text: string)
    ensures Clean(Slugify(text))
  {
    var a := LowerCase(text);
    LowerHasNoCapitals(text);
    ReplacedChars(a, false);
    var b := DropJunk(ReplaceSeparators(a, false));
    DroppedChars(ReplaceSeparators(a, false));
    CollapsedIsClean(b);
    TrimStartIsClean(CollapseDashes(b));
    TrimEndIsClean(TrimStart(CollapseDashes(b)));
  }

  lemma {:induction false} JoinScanned(s: string, acc: string)
    requires SlugChars(s) && NoDoubleDash(s) && (s != "" ==> s[|s| - 1] != '-')
    requires acc == "" && s != "" ==> s[0] != '-'
    ensures Join(Scan(s, acc)) == acc + s
  {
    if s == "" {
      assert acc + s == acc;
    } else if s[0] == '-' {
      var t := s[1..];
      assert t != "" && t[0] != '-';
      JoinScanned(t, "");
      assert "" + t == t;
      assert Flush(acc) + Scan(t, "") == [acc] + Scan(t, "");
      assert ([acc] + Scan(t, ""))[1..] == Scan(t, "");
      assert acc + "-" + t == acc + s;
    } else {
      JoinScanned(s[1..], acc + [s[0]]);
      assert acc + [s[0]] + s[1..] == acc + s;
    }
  }

  // ---- Results ----

  /** The pipeline joins the words of the text with dashes. */
  lemma SlugifyJoinsWords(text: string)
    ensures Slugify(text) == Join(Words(text))
  {
    var a := LowerCase(text);
    var b := DropJunk(ReplaceSeparators(a, false));
    SeparatorsKeepWords(a, false, "");
    CollapseKeepsWords(b, "");
    TrimStartKeepsWords(CollapseDashes(b));
    TrimEndKeepsWords(TrimStart(CollapseDashes(b)));
    WordsAreScanned(DeleteJunk(a));
    SlugifyIsClean(text);
    JoinScanned(Slugify(text), "");
    assert "" + Slugify(text) == Slugify(text);
  }

  lemma {:induction false} JoinedIsEmptyIff(ws: seq<string>)
    requires forall w | w in ws :: w != ""
    ensures Join(ws) == "" <==> ws == []
  {
    if ws != [] {
      assert ws[0] in ws;
    }
  }

  lemma {:induction false} NonEmptyWords(ws: seq<string>)
    ensures forall w | w in NonEmpty(ws) :: w != ""
  {
    if ws != [] {
      NonEmptyWords(ws[1..]);
    }
  }

  /** A text without words gets the fallback, any other one its words joined by dashes. */
  lemma ClassifyFallsBackIff(text: string, fallback: string)
    ensures Classify(text, fallback) == if Words(text) == [] then fallback else Join(Words(text))
  {
    SlugifyJoinsWords(text);
    NonEmptyWords(Split(DeleteJunk(LowerCase(text))));
    JoinedIsEmptyIff(Words(text));
  }

  lemma {:induction false} SlugCharsStay(s: string)
    requires SlugChars(s)
    ensures LowerCase(s) == s && DeleteJunk(s) == s
  {
    if s != "" {
      SlugCharsStay(s[1..]);
    }
  }

  /** A clean string is its own slug. */
  lemma CleanIsSlug(s: string)
    requires Clean(s)
    ensures Slugify(s) == s
  {
    SlugifyJoinsWords(s);
    SlugCharsStay(s);
    WordsAreScanned(s);
    JoinScanned(s, "");
    assert "" + s == s;
  }

  lemma ClassifyTwice(text: string)
    ensures Classify(Classify(text, ""), "") == Classify(text, "")
    ensures Clean(Classify(text, ""))
  {
    SlugifyIsClean(text);
    CleanIsSlug(Slugify(text));
  }

  lemma {:induction false} ScanConcat(s: string, t: string, acc: string)
    ensures Scan(s + " " + t, acc) == Scan(s, acc) + Scan(t, "")
  {
    var u := s + " " + t;
    if s == "" {
      assert u[0] == ' ' && u[1..] == t;
    } else {
      assert u[0] == s[0] && u[1..] == s[1..] + " " + t;
      ScanConcat(s[1..], t, if IsSplit(s[0]) then "" else acc + [s[0]]);
      if IsSplit(s[0]) {
        assert Flush(acc) + (Scan(s[1..], "") + Scan(t, "")) == Flush(acc) + Scan(s[1..], "") + Scan(t, "");
      }
    }
  }

  lemma {:induction false} PrepareConcat(s: string, t: string)
    ensures DeleteJunk(LowerCase(s + " " + t)) == DeleteJunk(LowerCase(s)) + " " + DeleteJunk(LowerCase(t))
  {
    var u := s + " " + t;
    if s == "" {
      assert u[0] == ' ' && u[1..] == t;
      var x := LowerCase(t);
      assert ([' '] + x)[1..] == x;
    } else {
      assert u[0] == s[0] && u[1..] == s[1..] + " " + t;
      PrepareConcat(s[1..], t);
      var x, y, c := LowerCase(s[1..] + " " + t), LowerCase(s[1..]), Lower(s[0]);
      assert ([c] + x)[1..] == x && ([c] + y)[1..] == y;
    }
  }

  lemma {:induction false} JoinConcat(a: seq<string>, b: seq<string>)
    requires a != [] && b != []
    ensures Join(a + b) == Join(a) + "-" + Join(b)
  {
    assert (a + b)[1..] == a[1..] + b;
    if |a| == 1 {
      assert a[1..] + b == b;
    } else {
      JoinConcat(a[1..], b);
      assert a[0] + "-" + (Join(a[1..]) + "-" + Join(b)) == a[0] + "-" + Join(a[1..]) + "-" + Join(b);
    }
  }

  /** Slugs of two texts with words are joined by a dash. */
  lemma SlugifyConcat(s: string, t: string)
    requires Slugify(s) != "" && Slugify(t) != ""
    ensures Slugify(s + " " + t) == Slugify(s) + "-" + Slugify(t)
  {
    SlugifyJoinsWords(s);
    SlugifyJoinsWords(t);
    SlugifyJoinsWords(s + " " + t);
    PrepareConcat(s, t);
    var x, y := DeleteJunk(LowerCase(s)), DeleteJunk(LowerCase(t));
    ScanConcat(x, y, "");
    WordsAreScanned(x);
    WordsAreScanned(y);
    WordsAreScanned(x + " " + y);
    JoinConcat(Words(s), Words(t));
  }
}
