// Which denylisted words can be slipped past the filter? A disguise is any sequence of
// case changes, leet substitutions, separator insertions and letter repetitions, set
// into any surrounding text. A substring word is proof against all of them exactly when
// it has no two equal neighbours, or at most two runs of letters.
module Evasion {
  import opened Common
  import opened Identity
  import opened Moderation

  datatype Edit =
    | Recase(at: nat, c: char)
    | Leeten(at: nat, c: char)
    | Separate(at: nat, c: char)
    | Repeat(at: nat)

  predicate Possible(u: Unicode, s: string, e: Edit) {
    match e
    case Recase(at, c) => at < |s| && u.lower(c) == u.lower(s[at])
    case Leeten(at, c) => at < |s| && Leetspeak(c) && Leet(c) == u.lower(s[at])
    case Separate(at, c) => at <= |s| && IsSep(c)
    case Repeat(at) => at < |s|
  }

  function Make(s: string, e: Edit): string
    requires e.at <= |s| && (!e.Separate? ==> e.at < |s|)
  {
    match e
    case Recase(at, c) => s[..at] + [c] + s[at + 1..]
    case Leeten(at, c) => s[..at] + [c] + s[at + 1..]
    case Separate(at, c) => s[..at] + [c] + s[at..]
    case Repeat(at) => s[..at] + [s[at], s[at]] + s[at + 1..]
  }

  // x is w under a series of edits, in any order.
  ghost predicate Disguises(u: Unicode, w: string, edits: seq<Edit>, x: string)
    decreases |edits|
  {
    if edits == [] then x == w
    else Possible(u, w, edits[0]) && Disguises(u, Make(w, edits[0]), edits[1..], x)
  }

  predicate Letters(w: string) {
    w != "" && forall i :: 0 <= i < |w| ==> 'a' <= w[i] <= 'z'
  }

  ghost predicate NoEqualNeighbours(w: string) {
    forall i :: 0 <= i < |w| - 1 ==> w[i] != w[i + 1]
  }

  function Canon(u: Unicode, s: string): string {
    Strip(Fold(u, s))
  }

  // ---- Disguises only stretch ----

  // t is w with each letter repeated one or more times.
  predicate Stretch(t: string, w: string)
    decreases |t|
  {
    if w == "" then t == ""
    else t != "" && t[0] == w[0] && (Stretch(t[1..], w[1..]) || Stretch(t[1..], w))
  }

  lemma {:induction false} StripAppend(a: string, b: string)
    ensures Strip(a + b) == Strip(a) + Strip(b)
  {
    if a == "" {
      assert a + b == b;
    } else {
      assert (a + b)[1..] == a[1..] + b;
      StripAppend(a[1..], b);
    }
  }

  lemma CanonAppend(u: Unicode, a: string, b: string)
    ensures Canon(u, a + b) == Canon(u, a) + Canon(u, b)
  {
    assert Fold(u, a + b) == Fold(u, a) + Fold(u, b);
    StripAppend(Fold(u, a), Fold(u, b));
  }

  lemma StripOne(c: char)
    ensures Strip([c]) == if IsSep(c) then "" else [c]
  {
    assert [c][1..] == "";
    assert [c] + "" == [c];
  }

  lemma CanonOne(u: Unicode, c: char)
    ensures Canon(u, [c]) == if IsSep(Leet(u.lower(c))) then "" else [Leet(u.lower(c))]
  {
    assert Fold(u, [c]) == [Leet(u.lower(c))];
    StripOne(Leet(u.lower(c)));
  }

  lemma CanonThree(u: Unicode, a: string, m: string, b: string)
    ensures Canon(u, a + m + b) == Canon(u, a) + Canon(u, m) + Canon(u, b)
  {
    CanonAppend(u, a + m, b);
    CanonAppend(u, a, m);
  }

  lemma {:induction false} StretchSelf(w: string)
    ensures Stretch(w, w)
  {
    if w != "" {
      StretchSelf(w[1..]);
    }
  }

  lemma {:induction false} StretchRepeat(a: string, y: char, b: string, w: string)
    requires Stretch(a + [y] + b, w)
    ensures Stretch(a + [y, y] + b, w)
    decreases |a|
  {
    var t := a + [y] + b;
    var t' := a + [y, y] + b;
    if a == "" {
      assert t'[1..] == t;
    } else {
      assert t[1..] == a[1..] + [y] + b;
      assert t'[1..] == a[1..] + [y, y] + b;
      if Stretch(t[1..], w[1..]) {
        StretchRepeat(a[1..], y, b, w[1..]);
      } else {
        StretchRepeat(a[1..], y, b, w);
      }
    }
  }

  // Separators go; case changes and leet substitutions do not show; a repetition stretches.
  lemma SeparatorsVanish(u: Unicode, a: string, c: char, b: string)
    requires LowersAscii(u) && IsSep(c)
    ensures Canon(u, a + [c] + b) == Canon(u, a + b)
  {
    CanonAppend(u, a, b);
    CanonThree(u, a, [c], b);
    CanonOne(u, c);
  }

  lemma LookalikesDoNotShow(u: Unicode, a: string, x: char, y: char, b: string)
    requires Leet(u.lower(x)) == Leet(u.lower(y))
    ensures Canon(u, a + [x] + b) == Canon(u, a + [y] + b)
  {
    CanonThree(u, a, [x], b);
    CanonThree(u, a, [y], b);
    CanonOne(u, x);
    CanonOne(u, y);
  }

  lemma RepetitionsStretch(u: Unicode, a: string, x: char, b: string, w: string)
    requires Stretch(Canon(u, a + [x] + b), w)
    ensures Stretch(Canon(u, a + [x, x] + b), w)
  {
    var y := Leet(u.lower(x));
    assert [x, x] == [x] + [x];
    CanonThree(u, a, [x], b);
    CanonThree(u, a, [x, x], b);
    CanonAppend(u, [x], [x]);
    CanonOne(u, x);
    if !IsSep(y) {
      assert [y] + [y] == [y, y];
      StretchRepeat(Canon(u, a), y, Canon(u, b), w);
    }
  }

  lemma EditKeepsStretch(u: Unicode, s: string, e: Edit, w: string)
    requires LowersAscii(u) && Possible(u, s, e) && Stretch(Canon(u, s), w)
    ensures Stretch(Canon(u, Make(s, e)), w)
  {
    if e.Separate? {
      SeparatorsVanish(u, s[..e.at], e.c, s[e.at..]);
      assert s == s[..e.at] + s[e.at..];
    } else {
      assert s == s[..e.at] + [s[e.at]] + s[e.at + 1..];
      if e.Repeat? {
        RepetitionsStretch(u, s[..e.at], s[e.at], s[e.at + 1..], w);
      } else {
        LookalikesDoNotShow(u, s[..e.at], s[e.at], e.c, s[e.at + 1..]);
      }
    }
  }

  lemma {:induction false} DisguisesStretch(u: Unicode, s: string, edits: seq<Edit>, x: string, w: string)
    requires LowersAscii(u) && Disguises(u, s, edits, x) && Stretch(Canon(u, s), w)
    ensures Stretch(Canon(u, x), w)
    decreases |edits|
  {
    if edits != [] {
      EditKeepsStretch(u, s, edits[0], w);
      DisguisesStretch(u, Make(s, edits[0]), edits[1..], x, w);
    }
  }

  lemma {:induction false} LettersAreCanonical(u: Unicode, w: string)
    requires LowersAscii(u) && (forall i :: 0 <= i < |w| ==> 'a' <= w[i] <= 'z')
    ensures Canon(u, w) == w
  {
    if w != "" {
      LettersAreCanonical(u, w[1..]);
      assert w == [w[0]] + w[1..];
      CanonAppend(u, [w[0]], w[1..]);
      CanonOne(u, w[0]);
    }
  }

  // ---- Collapsing undoes stretching ----

  lemma {:induction false} CollapseBasics(s: string)
    ensures |Collapse(s)| <= |s| && (s != "" ==> Collapse(s) != "" && Collapse(s)[0] == s[0])
    ensures NoEqualNeighbours(Collapse(s))
    ensures NoEqualNeighbours(s) <==> Collapse(s) == s
  {
    if |s| > 1 {
      CollapseBasics(s[1..]);
      if s[0] != s[1] {
        var c := Collapse(s);
        assert c == [s[0]] + Collapse(s[1..]);
        if NoEqualNeighbours(s) {
          assert NoEqualNeighbours(s[1..]);
        }
      }
    }
  }

  lemma {:induction false} CollapseStretch(t: string, w: string)
    requires Stretch(t, w)
    ensures Collapse(t) == Collapse(w)
    decreases |t|
  {
    if w != "" {
      if Stretch(t[1..], w[1..]) {
        CollapseStretch(t[1..], w[1..]);
        if |t| > 1 && |w| > 1 {
          assert t[1] == w[1];
        } else if |w| == 1 {
          assert t[1..] == "";
        }
      } else {
        CollapseStretch(t[1..], w);
      }
    }
  }

  // Text before or after only adds around what a part collapses to.
  lemma {:induction false} CollapseAfter(a: string, b: string)
    ensures |Collapse(a + b)| >= |Collapse(b)|
    ensures Collapse(a + b)[|Collapse(a + b)| - |Collapse(b)|..] == Collapse(b)
  {
    if a == "" {
      assert a + b == b;
    } else {
      assert (a + b)[1..] == a[1..] + b;
      CollapseAfter(a[1..], b);
      CollapseBasics(b);
      CollapseBasics(a + b);
    }
  }

  lemma {:induction false} CollapseBefore(a: string, b: string)
    ensures Collapse(a) <= Collapse(a + b)
  {
    if a == "" {
      assert a + b == b;
    } else if |a| == 1 {
      CollapseBasics(a + b);
    } else {
      assert (a + b)[1..] == a[1..] + b;
      CollapseBefore(a[1..], b);
    }
  }

  lemma CollapseInside(p: string, t: string, q: string)
    ensures Contains(Collapse(p + t + q), Collapse(t))
  {
    CollapseAfter(p, t);
    CollapseBefore(p + t, q);
    var i := |Collapse(p + t)| - |Collapse(t)|;
    assert At(Collapse(p + t + q), Collapse(t), i);
  }

  // ---- The theorem ----

  ghost predicate Seen(stripped: string, w: string) {
    Contains(stripped, w) || Contains(Collapse(stripped), w)
  }

  // No disguise of w in any surrounding text goes unseen.
  ghost predicate EvasionProof(u: Unicode, w: string) {
    forall edits, x, pre, post :: Disguises(u, w, edits, x) ==> Seen(Canon(u, pre + x + post), w)
  }

  lemma WordsWithoutRepeatsAreProof(u: Unicode, w: string)
    requires LowersAscii(u) && Letters(w) && NoEqualNeighbours(w)
    ensures EvasionProof(u, w)
  {
    forall edits, x, pre, post | Disguises(u, w, edits, x) ensures Seen(Canon(u, pre + x + post), w) {
      LettersAreCanonical(u, w);
      StretchSelf(w);
      DisguisesStretch(u, w, edits, x, w);
      CanonThree(u, pre, x, post);
      CollapseStretch(Canon(u, x), w);
      CollapseBasics(w);
      CollapseInside(Canon(u, pre), Canon(u, x), Canon(u, post));
    }
  }

  // ... and so a name carrying such a word is refused whatever else the list holds,
  // unless its stripped form is allow-listed.
  lemma DisguisedWordsAreDenied(u: Unicode, dl: Denylist, w: string, edits: seq<Edit>, x: string, pre: string, post: string)
    requires LowersAscii(u) && w in dl.substrings && Letters(w) && NoEqualNeighbours(w)
    requires Disguises(u, w, edits, x)
    ensures Denied(u, dl, pre + x + post) <==> Canon(u, pre + x + post) !in dl.allow
  {
    WordsWithoutRepeatsAreProof(u, w);
    assert Seen(Canon(u, pre + x + post), w);
  }

  // ---- Exactly which words are proof ----

  // A word of one or two runs is proof too: stretching its ends still leaves it inside.
  predicate Run(s: string, c: char) {
    forall i :: 0 <= i < |s| ==> s[i] == c
  }

  lemma {:induction false} StretchOfARun(t: string, w: string, c: char)
    requires Stretch(t, w) && Run(w, c)
    ensures Run(t, c) && |t| >= |w|
    decreases |t|
  {
    if w != "" {
      if Stretch(t[1..], w[1..]) {
        StretchOfARun(t[1..], w[1..], c);
      } else {
        StretchOfARun(t[1..], w, c);
      }
    }
  }

  // A stretch of v + r is a stretch of v and then one of r.
  lemma {:induction false} StretchSplits(t: string, v: string, r: string) returns (k: nat)
    requires Stretch(t, v + r)
    ensures k <= |t| && Stretch(t[..k], v) && Stretch(t[k..], r)
    decreases |t|
  {
    if v == "" {
      assert v + r == r;
      k := 0;
    } else {
      var w := v + r;
      assert w[1..] == v[1..] + r;
      if Stretch(t[1..], w[1..]) {
        k := StretchSplits(t[1..], v[1..], r);
        assert t[..k + 1][1..] == t[1..][..k];
      } else {
        k := StretchSplits(t[1..], v, r);
        assert t[..k + 1][1..] == t[1..][..k];
      }
      k := k + 1;
    }
  }

  lemma {:induction false} FewRuns(w: string) returns (k: nat)
    requires |Collapse(w)| <= 2 && w != ""
    ensures k <= |w| && Run(w[..k], w[0]) && Run(w[k..], w[|w| - 1])
    ensures |Collapse(w)| <= 1 ==> k == |w|
  {
    if |w| == 1 {
      k := 1;
    } else {
      CollapseBasics(w[1..]);
      k := FewRuns(w[1..]);
      if w[0] == w[1] {
        k := k + 1;
      } else {
        assert |Collapse(w[1..])| == 1;
        assert w[1..][..k] == w[1..];
        k := 1;
        assert w[1..] == w[1..][..|w| - 1];
      }
    }
  }

  lemma TwoRunsInside(p: string, t: string, q: string, w: string, k: nat)
    requires w != "" && k <= |w| && Run(w[..k], w[0]) && Run(w[k..], w[|w| - 1]) && Stretch(t, w)
    ensures Contains(p + t + q, w)
  {
    assert w == w[..k] + w[k..];
    var n := StretchSplits(t, w[..k], w[k..]);
    StretchOfARun(t[..n], w[..k], w[0]);
    StretchOfARun(t[n..], w[k..], w[|w| - 1]);
    TwoRunsMatch(t, w, k, n);
    var i := n - k;
    assert (p + t + q)[|p| + i..|p| + i + |w|] == t[i..i + |w|];
    assert At(p + t + q, w, |p| + i);
  }

  lemma TwoRunsMatch(t: string, w: string, k: nat, n: nat)
    requires w != "" && k <= |w| && k <= n <= |t| && |w| - k <= |t| - n
    requires Run(w[..k], w[0]) && Run(w[k..], w[|w| - 1]) && Run(t[..n], w[0]) && Run(t[n..], w[|w| - 1])
    ensures t[n - k..n - k + |w|] == w
  {
    forall j | 0 <= j < |w| ensures t[n - k + j] == w[j] {
      if j < k {
        assert t[n - k + j] == t[..n][n - k + j] && w[j] == w[..k][j];
      } else {
        assert t[n - k + j] == t[n..][j - k] && w[j] == w[k..][j - k];
      }
    }
  }

  lemma WordsOfTwoRunsAreProof(u: Unicode, w: string)
    requires LowersAscii(u) && Letters(w) && |Collapse(w)| <= 2
    ensures EvasionProof(u, w)
  {
    var k := FewRuns(w);
    forall edits, x, pre, post | Disguises(u, w, edits, x) ensures Seen(Canon(u, pre + x + post), w) {
      LettersAreCanonical(u, w);
      StretchSelf(w);
      DisguisesStretch(u, w, edits, x, w);
      CanonThree(u, pre, x, post);
      TwoRunsInside(Canon(u, pre), Canon(u, x), Canon(u, post), w, k);
    }
  }

  // Two places where the letter changes, the second after the first.
  lemma {:induction false} ThreeRuns(w: string) returns (j: nat, k: nat)
    requires |Collapse(w)| >= 3
    ensures j < k < |w| - 1 && w[j] != w[j + 1] && w[k] != w[k + 1]
  {
    CollapseBasics(w[1..]);
    if w[0] == w[1] {
      j, k := ThreeRuns(w[1..]);
      j, k := j + 1, k + 1;
    } else {
      j := 0;
      k := TwoRuns(w[1..]);
      k := k + 1;
    }
  }

  lemma {:induction false} TwoRuns(w: string) returns (k: nat)
    requires |Collapse(w)| >= 2
    ensures k < |w| - 1 && w[k] != w[k + 1]
  {
    if w[0] == w[1] {
      k := TwoRuns(w[1..]);
      k := k + 1;
    } else {
      k := 0;
    }
  }

  lemma TooLongToMatch(w: string, j: nat, k: nat)
    requires j < k < |w| - 1 && w[j] != w[j + 1] && w[k] != w[k + 1]
    ensures !Contains(Make(w, Repeat(k)), w)
  {
    var x := Make(w, Repeat(k));
    assert x[0..|w|][k + 1] == w[k] && x[1..1 + |w|][j] == w[j + 1];
    assert !At(x, w, 0) && !At(x, w, 1);
  }

  lemma TooShortToMatch(w: string, k: nat)
    requires k < |w| && !NoEqualNeighbours(w)
    ensures !Contains(Collapse(Make(w, Repeat(k))), w)
  {
    StretchSelf(w);
    assert w == w[..k] + [w[k]] + w[k + 1..];
    StretchRepeat(w[..k], w[k], w[k + 1..], w);
    CollapseStretch(Make(w, Repeat(k)), w);
    CollapseBasics(w);
    if |Collapse(w)| == |w| {
      FullLength(w);
    }
  }

  // Repeating the last letter of an inner run hides the word: the stripped form has the
  // run too long, the collapsed form has every run too short.
  lemma TheRepetitionThatHides(u: Unicode, w: string, j: nat, k: nat)
    requires LowersAscii(u) && Letters(w) && !NoEqualNeighbours(w)
    requires j < k < |w| - 1 && w[j] != w[j + 1] && w[k] != w[k + 1]
    ensures Disguises(u, w, [Repeat(k)], Make(w, Repeat(k)))
    ensures !Seen(Canon(u, "" + Make(w, Repeat(k)) + ""), w)
  {
    var x := Make(w, Repeat(k));
    assert "" + x + "" == x;
    assert Disguises(u, x, [Repeat(k)][1..], x);
    LettersAreCanonical(u, x);
    TooLongToMatch(w, j, k);
    TooShortToMatch(w, k);
  }

  lemma {:induction false} FullLength(w: string)
    requires |Collapse(w)| == |w|
    ensures NoEqualNeighbours(w)
  {
    if |w| > 1 {
      CollapseBasics(w[1..]);
      if w[0] != w[1] {
        FullLength(w[1..]);
        forall i | 0 <= i < |w| - 1 ensures w[i] != w[i + 1] {
          if i > 0 {
            assert w[1..][i - 1] != w[1..][i];
          }
        }
      }
    }
  }

  // The documented promise holds for these words and for no others.
  lemma EvasionProofExactlyWhen(u: Unicode, w: string)
    requires LowersAscii(u) && Letters(w)
    ensures EvasionProof(u, w) <==> NoEqualNeighbours(w) || |Collapse(w)| <= 2
  {
    if NoEqualNeighbours(w) {
      WordsWithoutRepeatsAreProof(u, w);
    } else if |Collapse(w)| <= 2 {
      WordsOfTwoRunsAreProof(u, w);
    } else {
      var j, k := ThreeRuns(w);
      TheRepetitionThatHides(u, w, j, k);
    }
  }

  // Concretely: with "abba" on the list and nothing else, the name ABBBA passes. Names
  // reach the filter in capitals.
  lemma AbbbaPasses(u: Unicode)
    requires LowersAscii(u) && u.lower('A') == 'a' && u.lower('B') == 'b'
    ensures !Denied(u, Denylist(["abba"], {}, {}), "ABBBA")
  {
    var w, x := "abba", "abbba";
    assert w[1] == w[2];
    TheRepetitionThatHides(u, w, 0, 2);
    assert Make(w, Repeat(2)) == x && "" + x + "" == x;
    assert Fold(u, "ABBBA") == Fold(u, x);
  }
}
