// The name filter's pipeline: fold case and leetspeak, strip separators, collapse
// repeats, then match a tiered denylist.
module Moderation {
  import opened Common
  import opened Identity

  // The fixed part of lower-casing: letters and every character the tables name.
  ghost predicate LowersAscii(u: Unicode) {
    && (forall c :: 'a' <= c <= 'z' ==> u.lower(c) == c)
    && (forall c :: Leetspeak(c) || IsSep(c) ==> u.lower(c) == c)
  }

  predicate Leetspeak(c: char) {
    c == '0' || c == '1' || c == '3' || c == '4' || c == '5' || c == '6' || c == '7' || c == '8' ||
    c == '@' || c == '$' || c == '!' || c == '+'
  }

  function Leet(c: char): char {
    match c
    case '0' => 'o'
    case '1' => 'i'
    case '3' => 'e'
    case '4' => 'a'
    case '5' => 's'
    case '6' => 'g'
    case '7' => 't'
    case '8' => 'b'
    case '@' => 'a'
    case '$' => 's'
    case '!' => 'i'
    case '+' => 't'
    case _ => c
  }

  predicate IsSep(c: char) {
    c == ' ' || c == '-' || c == '_'
  }

  function Fold(u: Unicode, s: string): (t: string)
    ensures |t| == |s| && forall i :: 0 <= i < |s| ==> t[i] == Leet(u.lower(s[i]))
  {
    if s == "" then "" else [Leet(u.lower(s[0]))] + Fold(u, s[1..])
  }

  function Strip(s: string): string {
    if s == "" then "" else (if IsSep(s[0]) then "" else [s[0]]) + Strip(s[1..])
  }

  // One character of each run.
  function Collapse(s: string): string {
    if |s| <= 1 then s else if s[0] == s[1] then Collapse(s[1..]) else [s[0]] + Collapse(s[1..])
  }

  predicate At(s: string, w: string, i: int) {
    0 <= i <= |s| - |w| && s[i..i + |w|] == w
  }

  ghost predicate Contains(s: string, w: string) {
    exists i :: At(s, w, i)
  }

  // ---- Tokens ----

  function PieceLength(s: string): (n: nat)
    ensures n <= |s| && (forall i :: 0 <= i < n ==> !IsSep(s[i])) && (n < |s| ==> IsSep(s[n]))
  {
    if s == "" || IsSep(s[0]) then 0 else 1 + PieceLength(s[1..])
  }

  function Tokens(s: string): seq<string>
    decreases |s|
  {
    if s == "" then []
    else if IsSep(s[0]) then Tokens(s[1..])
    else [s[..PieceLength(s)]] + Tokens(s[PieceLength(s)..])
  }

  // A whole word of s: non-empty, free of separators, with one or an end on each side.
  ghost predicate WordAt(s: string, i: nat, j: nat) {
    && i < j <= |s| && (forall k :: i <= k < j ==> !IsSep(s[k]))
    && (i == 0 || IsSep(s[i - 1])) && (j == |s| || IsSep(s[j]))
  }

  lemma WordShift(s: string, d: nat, i: nat, j: nat)
    requires d <= |s| && WordAt(s[d..], i, j)
    requires i > 0 || d == 0 || IsSep(s[d - 1])
    ensures WordAt(s, d + i, d + j) && s[d + i..d + j] == s[d..][i..j]
  {
  }

  lemma {:induction false} TokensAreWords(s: string, tok: string) returns (i: nat, j: nat)
    requires tok in Tokens(s)
    ensures WordAt(s, i, j) && s[i..j] == tok
    decreases |s|
  {
    var n := PieceLength(s);
    if IsSep(s[0]) {
      i, j := TokensAreWords(s[1..], tok);
      WordShift(s, 1, i, j);
      i, j := i + 1, j + 1;
    } else if tok == s[..n] {
      i, j := 0, n;
    } else {
      i, j := TokensAreWords(s[n..], tok);
      WordShift(s, n, i, j);
      i, j := i + n, j + n;
    }
  }

  lemma {:induction false} WordsAreTokens(s: string, i: nat, j: nat)
    requires WordAt(s, i, j)
    ensures s[i..j] in Tokens(s)
    decreases |s|
  {
    var n := PieceLength(s);
    if i == 0 {
      assert j == n;
    } else {
      var d := if IsSep(s[0]) then 1 else n;
      assert d <= i;
      assert WordAt(s[d..], i - d, j - d) && s[d..][i - d..j - d] == s[i..j];
      WordsAreTokens(s[d..], i - d, j - d);
    }
  }

  // ---- The loops ----

  method FoldLeet(u: Unicode, s: string) returns (folded: string)
    ensures folded == Fold(u, s)
  {
    var lowered := Lower(u, s);
    folded := "";
    for i := 0 to |lowered|
      invariant |folded| == i && forall k :: 0 <= k < i ==> folded[k] == Leet(u.lower(s[k]))
    {
      folded := folded + [Leet(lowered[i])];
    }
  }

  lemma {:induction false} CollapseSnoc(s: string, c: char)
    requires s != ""
    ensures Collapse(s + [c]) == if s[|s| - 1] == c then Collapse(s) else Collapse(s) + [c]
  {
    if |s| > 1 {
      assert (s + [c])[1..] == s[1..] + [c];
      CollapseSnoc(s[1..], c);
    }
  }

  method CollapseRepeats(s: string) returns (collapsed: string)
    ensures collapsed == Collapse(s)
  {
    collapsed := "";
    var last := -1;
    for i := 0 to |s|
      invariant collapsed == Collapse(s[..i])
      invariant last == if i == 0 then -1 else s[i - 1] as int
    {
      assert s[..i + 1] == s[..i] + [s[i]];
      if i > 0 {
        CollapseSnoc(s[..i], s[i]);
      }
      if s[i] as int == last {
        continue;
      }
      collapsed := collapsed + [s[i]];
      last := s[i] as int;
    }
    assert s[..|s|] == s;
  }

  // ---- The denylist ----

  datatype Tier = Slur | Profanity | UnknownTier(name: string)

  datatype Match = Substring | Word | UnknownMatch(name: string)

  datatype Term = Term(word: string, tier: Tier, match_: Match)

  datatype Denylist = Denylist(substrings: seq<string>, words: set<string>, allow: set<string>)

  // Errors name an entry by index only.
  datatype LoadError = BadTier(index: nat) | BadMatch(index: nat)

  function Clean(u: Unicode, w: string): string {
    Lower(u, TrimRight(u, TrimLeft(u, w)))
  }

  predicate Usable(u: Unicode, t: Term) {
    Clean(u, t.word) == "" || (!t.tier.UnknownTier? && !t.match_.UnknownMatch?)
  }

  method NewDenylist(u: Unicode, terms: seq<Term>, allow: seq<string>) returns (r: Result<Denylist, LoadError>)
    ensures r.Ok? <==> forall i :: 0 <= i < |terms| ==> Usable(u, terms[i])
    ensures r.Ok? ==> forall w :: w in r.value.substrings <==>
              w != "" && exists i :: 0 <= i < |terms| && terms[i].match_.Substring? && Clean(u, terms[i].word) == w
    ensures r.Ok? ==> forall w :: w in r.value.words <==>
              w != "" && exists i :: 0 <= i < |terms| && terms[i].match_.Word? && Clean(u, terms[i].word) == w
    ensures r.Ok? ==> forall a :: a in r.value.allow <==>
              a != "" && exists i :: 0 <= i < |allow| && Clean(u, allow[i]) == a
    // A refused list is refused for its first bad entry.
    ensures r.Err? ==>
              r.error.index < |terms| && !Usable(u, terms[r.error.index]) &&
              (forall i :: 0 <= i < r.error.index ==> Usable(u, terms[i]))
  {
    var substrings: seq<string>, words: set<string>, allowed: set<string> := [], {}, {};
    for i := 0 to |terms|
      invariant forall k :: 0 <= k < i ==> Usable(u, terms[k])
      invariant forall w :: w in substrings <==>
        w != "" && exists k :: 0 <= k < i && terms[k].match_.Substring? && Clean(u, terms[k].word) == w
      invariant forall w :: w in words <==>
        w != "" && exists k :: 0 <= k < i && terms[k].match_.Word? && Clean(u, terms[k].word) == w
    {
      var w := Clean(u, terms[i].word);
      if w == "" {
        continue;
      }
      if terms[i].tier.UnknownTier? {
        return Err(BadTier(i));
      }
      match terms[i].match_ {
        case Substring => substrings := substrings + [w];
        case Word => words := words + {w};
        case UnknownMatch(_) => return Err(BadMatch(i));
      }
    }
    for i := 0 to |allow|
      invariant forall a :: a in allowed <==> a != "" && exists k :: 0 <= k < i && Clean(u, allow[k]) == a
    {
      var a := Clean(u, allow[i]);
      if a != "" {
        allowed := allowed + {a};
      }
    }
    r := Ok(Denylist(substrings, words, allowed));
  }

  // What it means for a name to be denied.
  ghost predicate Denied(u: Unicode, dl: Denylist, name: string) {
    var stripped := Strip(Fold(u, name));
    stripped !in dl.allow &&
    ((exists bad :: bad in dl.substrings && bad != "" && (Contains(stripped, bad) || Contains(Collapse(stripped), bad))) ||
     (exists tok :: tok in Tokens(Fold(u, name)) && tok in dl.words))
  }

  method HasSubstring(s: string, w: string) returns (found: bool)
    ensures found == Contains(s, w)
  {
    var i := 0;
    while i + |w| <= |s|
      invariant 0 <= i
      invariant forall k :: 0 <= k < i ==> !At(s, w, k)
    {
      if At(s, w, i) {
        return true;
      }
      i := i + 1;
    }
    found := false;
  }

  method Blocks(dl: Denylist, stripped: string, collapsed: string, toks: seq<string>) returns (blocked: bool)
    ensures blocked <==>
      stripped !in dl.allow &&
      ((exists bad :: bad in dl.substrings && bad != "" && (Contains(stripped, bad) || Contains(collapsed, bad))) ||
       (exists tok :: tok in toks && tok in dl.words))
  {
    if stripped in dl.allow {
      return false;
    }
    for i := 0 to |dl.substrings|
      invariant forall k :: 0 <= k < i && dl.substrings[k] != "" ==>
        !Contains(stripped, dl.substrings[k]) && !Contains(collapsed, dl.substrings[k])
    {
      var bad := dl.substrings[i];
      if bad == "" {
        continue;
      }
      var inStripped := HasSubstring(stripped, bad);
      var inCollapsed := HasSubstring(collapsed, bad);
      if inStripped || inCollapsed {
        return true;
      }
    }
    for i := 0 to |toks|
      invariant forall k :: 0 <= k < i ==> toks[k] !in dl.words
    {
      if toks[i] in dl.words {
        return true;
      }
    }
    blocked := false;
  }

  method Check(u: Unicode, dl: Denylist, name: string) returns (ok: bool)
    ensures ok == !Denied(u, dl, name)
  {
    var folded := FoldLeet(u, name);
    var stripped := Strip(folded);
    var collapsed := CollapseRepeats(stripped);
    var blocked := Blocks(dl, stripped, collapsed, Tokens(folded));
    ok := !blocked;
  }
}
