/** Comma-joined lists as the registry tool reads them back. */
module Words {

  predicate Space(c: char) {
    c as int in {9, 10, 11, 12, 13, 28, 29, 30, 31, 32, 133, 160}
  }

  predicate Separator(c: char) {
    c == ',' || Space(c)
  }

  function StripLeft(s: string): string {
    if s != [] && Space(s[0]) then StripLeft(s[1..]) else s
  }

  function StripRight(s: string): string {
    if s != [] && Space(s[|s|-1]) then StripRight(s[..|s|-1]) else s
  }

  function Strip(s: string): string {
    StripRight(StripLeft(s))
  }

  function LowerChar(c: char): char {
    if 'A' <= c <= 'Z' then (c as int + 32) as char else c
  }

  function Lower(s: string): (r: string)
    ensures |r| == |s|
    ensures forall i :: 0 <= i < |s| ==> r[i] == LowerChar(s[i])
  {
    seq(|s|, i requires 0 <= i < |s| => LowerChar(s[i]))
  }

  /** The maximal runs of characters that separate nothing: `re.split(r"[,\s]+", s)` without its empty parts. */
  function Parts(s: string): (r: seq<string>)
    ensures s != [] && !Separator(s[|s|-1]) ==> r != []
  {
    if s == [] then []
    else
      var n := |s| - 1;
      var before := Parts(s[..n]);
      if Separator(s[n]) then before
      else if n > 0 && !Separator(s[n-1]) then before[..|before|-1] + [before[|before|-1] + [s[n]]]
      else before + [[s[n]]]
  }

  const NOTHING: set<string> := {"", "-", "none", "None", "[]"}

  /** `_split` of a text. */
  function Split(answer: string): seq<string> {
    var text := Strip(answer);
    if text in NOTHING then [] else Parts(text)
  }

  function Join(xs: seq<string>): string {
    if xs == [] then "" else if |xs| == 1 then xs[0] else Join(xs[..|xs|-1]) + "," + xs[|xs|-1]
  }

  /** `",".join(xs) or "-"`. */
  function Shown(xs: seq<string>): string {
    if Join(xs) == "" then "-" else Join(xs)
  }

  predicate Word(s: string) {
    s != "" && forall c <- s :: !Separator(c)
  }

  predicate AllWords(xs: seq<string>) {
    forall x <- xs :: Word(x)
  }

  predicate LowerCase(s: string) {
    forall c <- s :: 'a' <= c <= 'z'
  }

  // ---- words come apart where they were joined ----

  lemma {:induction false} PartsAfter(a: string, w: string)
    requires Word(w) && (a == "" || Separator(a[|a|-1]))
    ensures Parts(a + w) == Parts(a) + [w]
    decreases |w|
  {
    var n := |w| - 1;
    assert (a + w)[..|a + w| - 1] == a + w[..n];
    assert (a + w)[|a + w| - 1] == w[n];
    assert w == w[..n] + [w[n]];
    assert w[n] in w;
    if n == 0 {
      assert a + w[..n] == a;
    } else {
      assert w[n-1] in w;
      assert (a + w)[|a + w| - 2] == w[n-1];
      PartsAfter(a, w[..n]);
    }
  }

  lemma PartsOfComma(a: string)
    ensures Parts(a + ",") == Parts(a)
  {
    assert (a + ",")[..|a|] == a;
  }

  lemma {:induction false} PartsOfJoin(xs: seq<string>)
    requires AllWords(xs)
    ensures Parts(Join(xs)) == xs
    decreases |xs|
  {
    if xs == [] {
    } else if |xs| == 1 {
      assert xs[0] in xs;
      PartsAfter("", xs[0]);
      assert "" + xs[0] == xs[0];
    } else {
      var n := |xs| - 1;
      assert xs[n] in xs;
      PartsOfJoin(xs[..n]);
      PartsOfComma(Join(xs[..n]));
      PartsAfter(Join(xs[..n]) + ",", xs[n]);
      assert xs == xs[..n] + [xs[n]];
    }
  }

  lemma {:induction false} JoinEnds(xs: seq<string>)
    requires AllWords(xs) && xs != []
    ensures Join(xs) != "" && !Space(Join(xs)[0]) && !Space(Join(xs)[|Join(xs)|-1])
    decreases |xs|
  {
    var last := xs[|xs|-1];
    assert last in xs && last[0] in last && last[|last|-1] in last;
    if |xs| > 1 {
      JoinEnds(xs[..|xs|-1]);
    }
  }

  lemma NothingIsOneWord(s: string)
    requires s in NOTHING && s != ""
    ensures Word(s)
  {}

  /** Splitting undoes joining for all lists of words, except that the four words which stand for nothing are lost
      when they are alone in the list. */
  lemma SplitUndoesShown(xs: seq<string>)
    requires AllWords(xs)
    ensures Split(Shown(xs)) == xs <==> !(|xs| == 1 && xs[0] in NOTHING)
  {
    var text := Shown(xs);
    PartsOfJoin(xs);
    if xs == [] {
      assert Strip("-") == "-" by {
        assert !Space('-');
      }
    } else {
      JoinEnds(xs);
      assert Strip(text) == text;
      if text in NOTHING {
        NothingIsOneWord(text);
        PartsAfter("", text);
        assert "" + text == text;
        assert xs == [text];
      }
    }
  }

  lemma StripWord(w: string)
    requires Word(w)
    ensures Strip(w) == w
  {
    assert w[0] in w && w[|w|-1] in w;
  }

  lemma LowerOfLower(s: string)
    requires forall c <- s :: !('A' <= c <= 'Z')
    ensures Lower(s) == s
  {
    assert forall i :: 0 <= i < |s| ==> s[i] in s;
  }
}
