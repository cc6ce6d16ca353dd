/**
 Required literals of a regular expression: the syntax trees the guard parses, what they match,
 and which literal the extractor returns for each.
 */
module RegexLiterals {
  import opened Bytes

  datatype AnchorKind = BeginText | EndText | BeginLine | EndLine | WordBoundary | NoWordBoundary

  datatype Regex =
    | NoMatch
    | EmptyMatch
    | Literal(runes: Text, fold: bool)
    | CharClass(members: set<Byte>)
    | AnyChar
    | Anchor(kind: AnchorKind)
    | Capture(sub: Regex)
    | Star(sub: Regex)
    | Plus(sub: Regex)
    | Quest(sub: Regex)
    | Repeat(sub: Regex, min: nat, max: int)
    | Concat(subs: seq<Regex>)
    | Alternate(subs: seq<Regex>)

  predicate AnchorHolds(k: AnchorKind, t: Text, i: nat)
    requires i <= |t|
  {
    match k
    case BeginText => i == 0
    case EndText => i == |t|
    case BeginLine => i == 0 || t[i - 1] == 10
    case EndLine => i == |t| || t[i] == 10
    case WordBoundary => (i > 0 && IsWord(t[i - 1])) != (i < |t| && IsWord(t[i]))
    case NoWordBoundary => (i > 0 && IsWord(t[i - 1])) == (i < |t| && IsWord(t[i]))
  }

  /** Where each anchor holds in "a", a line break, "b". */
  lemma AnchorsIn(i: nat)
    requires i <= 3
    ensures var t: Text := [97, 10, 98];
            && (AnchorHolds(BeginText, t, i) <==> i == 0) && (AnchorHolds(EndText, t, i) <==> i == 3)
            && (AnchorHolds(BeginLine, t, i) <==> i == 0 || i == 2)
            && (AnchorHolds(EndLine, t, i) <==> i == 1 || i == 3)
            && AnchorHolds(WordBoundary, t, i) && !AnchorHolds(NoWordBoundary, t, i)
  {
  }

  /** Between two word bytes, and between two others, there is no boundary; everywhere else there is. */
  lemma BoundariesAre(t: Text, i: nat)
    requires 0 < i < |t|
    ensures AnchorHolds(WordBoundary, t, i) <==> IsWord(t[i - 1]) != IsWord(t[i])
    ensures AnchorHolds(NoWordBoundary, t, i) <==> !AnchorHolds(WordBoundary, t, i)
  {
  }

  // ---------------------------------------------------------------- what a tree matches

  ghost predicate Iterates(re: Regex, t: Text, i: nat, j: nat, n: nat)
    requires i <= j <= |t|
    decreases re, 1, n
  {
    if n == 0 then i == j
    else exists k: nat :: i <= k <= j && Spans(re, t, i, k) && Iterates(re, t, k, j, n - 1)
  }

  ghost predicate SpansAll(subs: seq<Regex>, t: Text, i: nat, j: nat)
    requires i <= j <= |t|
    decreases subs, 0, 0
  {
    if subs == [] then i == j
    else exists k: nat :: i <= k <= j && Spans(subs[0], t, i, k) && SpansAll(subs[1..], t, k, j)
  }

  /** `re` can match exactly the bytes of `t` from `i` up to `j`. */
  ghost predicate Spans(re: Regex, t: Text, i: nat, j: nat)
    requires i <= j <= |t|
    decreases re, 0, 0
  {
    match re
    case NoMatch => false
    case EmptyMatch => i == j
    case Literal(runes, fold) =>
      if fold then Lower(t[i..j]) == Lower(runes) else t[i..j] == runes
    case CharClass(members) => j == i + 1 && t[i] in members
    case AnyChar => j == i + 1
    case Anchor(kind) => i == j && AnchorHolds(kind, t, i)
    case Capture(sub) => Spans(sub, t, i, j)
    case Star(sub) => exists n: nat :: Iterates(sub, t, i, j, n)
    case Plus(sub) => exists n: nat :: n >= 1 && Iterates(sub, t, i, j, n)
    case Quest(sub) => i == j || Spans(sub, t, i, j)
    case Repeat(sub, min, max) => exists n: nat :: min <= n && (max < 0 || n <= max) && Iterates(sub, t, i, j, n)
    case Concat(subs) => SpansAll(subs, t, i, j)
    case Alternate(subs) => exists k :: 0 <= k < |subs| && Spans(subs[k], t, i, j)
  }

  /** A literal matches its own bytes, or any casing of them under `(?i)`. */
  lemma LiteralSpans(runes: Text, fold: bool, t: Text, i: nat, j: nat)
    requires i <= j <= |t|
    ensures Spans(Literal(runes, fold), t, i, j) <==> if fold then Recased(runes, t[i..j]) else t[i..j] == runes
  {
    LowerTells(runes, t[i..j]);
  }

  /** The unanchored search: some part of the text is matched. */
  ghost predicate Matches(re: Regex, t: Text) {
    exists i: nat, j: nat :: i <= j <= |t| && Spans(re, t, i, j)
  }

  // ---------------------------------------------------------------- the extractor

  function Flush(best: Text, current: Text): Text {
    if |current| > |best| then current else best
  }

  function ScanConcat(subs: seq<Regex>, best: Text, current: Text): Text
    decreases subs, 0
  {
    if subs == [] then Flush(best, current)
    else if subs[0].Literal? then ScanConcat(subs[1..], best, current + subs[0].runes)
    else
      var flushed := Flush(best, current);
      var deeper := LongestLiteral(subs[0]);
      ScanConcat(subs[1..], if |deeper| > |flushed| then deeper else flushed, [])
  }

  function ShortestBranch(subs: seq<Regex>, first: bool, shortest: Text): Text
    decreases subs, 0
  {
    if subs == [] then shortest
    else
      var lit := LongestLiteral(subs[0]);
      if lit == [] then []
      else ShortestBranch(subs[1..], false, if first || |lit| < |shortest| then lit else shortest)
  }

  /**
   The anchor the extractor picks: the longest literal run of a concatenation, the shortest branch of an alternation.
   */
  function LongestLiteral(re: Regex): Text
    decreases re, 1
  {
    match re
    case Literal(runes, _) => runes
    case Concat(subs) => ScanConcat(subs, [], [])
    case Capture(sub) => LongestLiteral(sub)
    case Alternate(subs) => ShortestBranch(subs, true, [])
    case _ => []
  }

  function Unwrap(re: Regex): Regex {
    match re
    case Capture(sub) => Unwrap(sub)
    case _ => re
  }

  /** One usable literal (three or more bytes) per branch, or none at all if a branch lacks one. */
  function BranchLiterals(subs: seq<Regex>): seq<Text> {
    if subs == [] then []
    else
      var lit := LongestLiteral(subs[0]);
      var rest := BranchLiterals(subs[1..]);
      if |lit| < 3 || (|subs| > 1 && rest == []) then [] else [Lower(lit)] + rest
  }

  /** The anchors a pattern contributes to the automaton; none means the pre-filter must not be used. */
  function ExtractAll(re: Regex): seq<Text> {
    var root := Unwrap(re);
    if root.Alternate? then BranchLiterals(root.subs)
    else if |LongestLiteral(re)| < 3 then []
    else [Lower(LongestLiteral(re))]
  }

  // ---------------------------------------------------------------- which literal it is

  lemma {:induction false} ScanLongest(subs: seq<Regex>, best: Text, current: Text, k: int)
    requires -1 <= k < |subs|
    ensures |ScanConcat(subs, best, current)| >= |best| && |ScanConcat(subs, best, current)| >= |current|
    ensures k >= 0 ==> |ScanConcat(subs, best, current)| >= |LongestLiteral(subs[k])|
    decreases subs
  {
    if subs != [] {
      var rest, deeper, flushed := subs[1..], LongestLiteral(subs[0]), Flush(best, current);
      if subs[0].Literal? {
        ScanLongest(rest, best, current + subs[0].runes, if k > 0 then k - 1 else -1);
      } else {
        ScanLongest(rest, if |deeper| > |flushed| then deeper else flushed, [], if k > 0 then k - 1 else -1);
      }
    }
  }

  /** A concatenation's literal is at least as long as that of any of its parts. */
  lemma ConcatLongest(subs: seq<Regex>, k: nat)
    requires k < |subs|
    ensures |LongestLiteral(Concat(subs))| >= |LongestLiteral(subs[k])|
  {
    ScanLongest(subs, [], [], k);
  }

  lemma {:induction false} ShortestOf(subs: seq<Regex>, first: bool, shortest: Text)
    requires !first ==> shortest != []
    ensures var lit := ShortestBranch(subs, first, shortest);
            && (lit == [] <==>
                (first && subs == [] && shortest == []) || exists k :: 0 <= k < |subs| && LongestLiteral(subs[k]) == [])
            && (lit != [] ==>
                  && (forall k :: 0 <= k < |subs| ==> |lit| <= |LongestLiteral(subs[k])|)
                  && (!first ==> |lit| <= |shortest|)
                  && (lit == shortest || exists k :: 0 <= k < |subs| && lit == LongestLiteral(subs[k])))
    decreases subs
  {
    if subs != [] {
      var lit, rest := LongestLiteral(subs[0]), subs[1..];
      if lit != [] {
        ShortestOf(rest, false, if first || |lit| < |shortest| then lit else shortest);
        assert forall k :: 0 < k < |subs| ==> subs[k] == rest[k - 1];
        assert forall k :: 0 <= k < |rest| ==> rest[k] == subs[k + 1];
      }
    }
  }

  /**
   An alternation's literal is that of one of its branches, and no branch's is shorter; it has none if a branch has
   none.
   */
  lemma AlternateShortest(subs: seq<Regex>)
    ensures var lit := LongestLiteral(Alternate(subs));
            if subs == [] || exists k :: 0 <= k < |subs| && LongestLiteral(subs[k]) == [] then lit == []
            else
              && (forall k :: 0 <= k < |subs| ==> |lit| <= |LongestLiteral(subs[k])|)
              && exists k :: 0 <= k < |subs| && lit == LongestLiteral(subs[k])
  {
    ShortestOf(subs, true, []);
  }

  /**
   A root alternation offers one anchor for each branch, or none if some branch's literal is shorter than three bytes.
   */
  lemma {:induction false} BranchLiteralsAre(subs: seq<Regex>)
    ensures if exists k :: 0 <= k < |subs| && |LongestLiteral(subs[k])| < 3 then BranchLiterals(subs) == []
            else BranchLiterals(subs) == seq(|subs|, i requires 0 <= i < |subs| => Lower(LongestLiteral(subs[i])))
  {
    if subs != [] {
      var rest := subs[1..];
      BranchLiteralsAre(rest);
      assert forall k :: 0 < k < |subs| ==> subs[k] == rest[k - 1];
      assert forall k :: 0 <= k < |rest| ==> rest[k] == subs[k + 1];
    }
  }

  // ---------------------------------------------------------------- soundness

  /**
   Every alternation the extractor looks into returns a literal that each of its branches repeats.
   Trees without an inner alternation satisfy this trivially.
   */
  ghost predicate Agreeing(re: Regex) {
    match re
    case Capture(sub) => Agreeing(sub)
    case Concat(subs) => forall k :: 0 <= k < |subs| ==> Agreeing(subs[k])
    case Alternate(subs) =>
      forall k :: 0 <= k < |subs| ==>
        Agreeing(subs[k]) && Occurs(Lower(LongestLiteral(re)), Lower(LongestLiteral(subs[k])))
    case _ => true
  }

  ghost predicate NoAlternation(re: Regex) {
    match re
    case Capture(sub) => NoAlternation(sub)
    case Concat(subs) => forall k :: 0 <= k < |subs| ==> NoAlternation(subs[k])
    case Alternate(_) => false
    case _ => true
  }

  /** The condition on a whole pattern: an alternation at the root is split, the rest must agree. */
  ghost predicate AgreeingPattern(re: Regex) {
    var root := Unwrap(re);
    if root.Alternate? then forall k :: 0 <= k < |root.subs| ==> Agreeing(root.subs[k]) else Agreeing(re)
  }

  ghost predicate AlternatesOnlyAtRoot(re: Regex) {
    var root := Unwrap(re);
    if root.Alternate? then forall k :: 0 <= k < |root.subs| ==> NoAlternation(root.subs[k]) else NoAlternation(re)
  }

  lemma {:induction false} NoAlternationAgrees(re: Regex)
    requires NoAlternation(re)
    ensures Agreeing(re)
  {
    match re
    case Capture(sub) => NoAlternationAgrees(sub);
    case Concat(subs) =>
      forall k | 0 <= k < |subs|
        ensures Agreeing(subs[k])
      {
        NoAlternationAgrees(subs[k]);
      }
    case _ =>
  }

  lemma RootAlternationAgrees(re: Regex)
    requires AlternatesOnlyAtRoot(re)
    ensures AgreeingPattern(re)
  {
    var root := Unwrap(re);
    if root.Alternate? {
      forall k | 0 <= k < |root.subs|
        ensures Agreeing(root.subs[k])
      {
        NoAlternationAgrees(root.subs[k]);
      }
    } else {
      NoAlternationAgrees(re);
    }
  }

  lemma OccursEmpty(t: Text)
    ensures Occurs([], t)
  {
    assert OccursAt([], t, 0);
  }

  lemma LowerConcat(a: Text, b: Text)
    ensures Lower(a + b) == Lower(a) + Lower(b)
  {
  }

  lemma OccursLeft(w: Text, a: Text, b: Text)
    requires Occurs(w, a)
    ensures Occurs(w, a + b)
  {
    var k: nat :| OccursAt(w, a, k);
    assert (a + b)[k..k + |w|] == a[k..k + |w|];
    assert OccursAt(w, a + b, k);
  }

  lemma OccursRight(w: Text, a: Text, b: Text)
    requires Occurs(w, b)
    ensures Occurs(w, a + b)
  {
    assert (a + b)[|a|..|a + b|] == b;
    OccursInPart(w, a + b, |a|, |a + b|);
  }

  lemma SuffixAppend(u: Text, a: Text, b: Text)
    requires SuffixOf(u, a)
    ensures SuffixOf(u + b, a + b)
  {
    assert (a + b)[|a| - |u|..] == a[|a| - |u|..] + b;
  }

  lemma LiteralExtends(re: Regex, best: Text, current: Text, t: Text, i: nat, k: nat, m: nat)
    requires i <= k <= m <= |t| && re.Literal? && Spans(re, t, k, m)
    requires Occurs(Lower(best), Lower(t[i..k])) && SuffixOf(Lower(current), Lower(t[i..k]))
    ensures Occurs(Lower(best), Lower(t[i..m])) && SuffixOf(Lower(current + re.runes), Lower(t[i..m]))
  {
    assert t[i..m] == t[i..k] + t[k..m];
    LowerConcat(t[i..k], t[k..m]);
    LowerConcat(current, re.runes);
    OccursLeft(Lower(best), Lower(t[i..k]), Lower(t[k..m]));
    SuffixAppend(Lower(current), Lower(t[i..k]), Lower(t[k..m]));
  }

  lemma PartsKeep(left: Text, right: Text, t: Text, i: nat, k: nat, m: nat)
    requires i <= k <= m <= |t| && Occurs(Lower(left), Lower(t[i..k])) && Occurs(Lower(right), Lower(t[k..m]))
    ensures Occurs(Lower(left), Lower(t[i..m])) && Occurs(Lower(right), Lower(t[i..m]))
  {
    assert t[i..m] == t[i..k] + t[k..m];
    LowerConcat(t[i..k], t[k..m]);
    OccursLeft(Lower(left), Lower(t[i..k]), Lower(t[k..m]));
    OccursRight(Lower(right), Lower(t[i..k]), Lower(t[k..m]));
  }

  /** The accumulator: `best` lies in the part matched so far and `current` ends it. */
  lemma {:induction false} ScanRequired(subs: seq<Regex>, best: Text, current: Text, t: Text, i: nat, k: nat, j: nat)
    requires forall m :: 0 <= m < |subs| ==> Agreeing(subs[m])
    requires i <= k <= j <= |t| && SpansAll(subs, t, k, j)
    requires Occurs(Lower(best), Lower(t[i..k])) && SuffixOf(Lower(current), Lower(t[i..k]))
    ensures Occurs(Lower(ScanConcat(subs, best, current)), Lower(t[i..j]))
    decreases subs, 0
  {
    assert OccursAt(Lower(current), Lower(t[i..k]), k - i - |current|);
    if subs != [] {
      var m: nat :| k <= m <= j && Spans(subs[0], t, k, m) && SpansAll(subs[1..], t, m, j);
      if subs[0].Literal? {
        LiteralExtends(subs[0], best, current, t, i, k, m);
        ScanRequired(subs[1..], best, current + subs[0].runes, t, i, m, j);
      } else {
        var flushed := Flush(best, current);
        var deeper := LongestLiteral(subs[0]);
        LiteralRequired(subs[0], t, k, m);
        PartsKeep(flushed, deeper, t, i, k, m);
        ScanRequired(subs[1..], if |deeper| > |flushed| then deeper else flushed, [], t, i, m, j);
      }
    }
  }

  /** Any part of the text an agreeing tree matches contains, lower-cased, the tree's literal. */
  lemma {:induction false} LiteralRequired(re: Regex, t: Text, i: nat, j: nat)
    requires Agreeing(re) && i <= j <= |t| && Spans(re, t, i, j)
    ensures Occurs(Lower(LongestLiteral(re)), Lower(t[i..j]))
    decreases re, 1
  {
    match re
    case Literal(runes, fold) =>
      assert OccursAt(Lower(runes), Lower(t[i..j]), 0);
    case Capture(sub) => LiteralRequired(sub, t, i, j);
    case Concat(subs) =>
      assert t[i..i] == [];
      OccursEmpty(Lower(t[i..i]));
      ScanRequired(subs, [], [], t, i, i, j);
    case Alternate(subs) =>
      var k :| 0 <= k < |subs| && Spans(subs[k], t, i, j);
      LiteralRequired(subs[k], t, i, j);
      OccursTrans(Lower(LongestLiteral(re)), Lower(LongestLiteral(subs[k])), Lower(t[i..j]));
    case NoMatch =>
    case _ => OccursEmpty(Lower(t[i..j]));
  }

  lemma {:induction false} UnwrapSpans(re: Regex, t: Text, i: nat, j: nat)
    requires i <= j <= |t|
    ensures Spans(re, t, i, j) <==> Spans(Unwrap(re), t, i, j)
  {
    if re.Capture? {
      UnwrapSpans(re.sub, t, i, j);
    }
  }

  lemma {:induction false} BranchLiteralsCover(subs: seq<Regex>, k: nat)
    requires k < |subs| && BranchLiterals(subs) != []
    ensures Lower(LongestLiteral(subs[k])) in BranchLiterals(subs)
  {
    if k > 0 {
      BranchLiteralsCover(subs[1..], k - 1);
    }
  }

  lemma BranchAnchor(subs: seq<Regex>, t: Text, i: nat, j: nat) returns (anchor: Text)
    requires i <= j <= |t| && Spans(Alternate(subs), t, i, j) && BranchLiterals(subs) != []
    requires forall k :: 0 <= k < |subs| ==> Agreeing(subs[k])
    ensures anchor in BranchLiterals(subs) && Occurs(anchor, Lower(t[i..j]))
  {
    var k :| 0 <= k < |subs| && Spans(subs[k], t, i, j);
    LiteralRequired(subs[k], t, i, j);
    BranchLiteralsCover(subs, k);
    anchor := Lower(LongestLiteral(subs[k]));
  }

  /** The promise the automaton needs: a match of the pattern brings one of its anchors with it. */
  lemma AnchorRequired(re: Regex, t: Text) returns (anchor: Text)
    requires AgreeingPattern(re) && ExtractAll(re) != [] && Matches(re, t)
    ensures anchor in ExtractAll(re) && Occurs(anchor, Lower(t))
  {
    var i: nat, j: nat :| i <= j <= |t| && Spans(re, t, i, j);
    var root := Unwrap(re);
    UnwrapSpans(re, t, i, j);
    if root.Alternate? {
      anchor := BranchAnchor(root.subs, t, i, j);
    } else {
      LiteralRequired(re, t, i, j);
      anchor := Lower(LongestLiteral(re));
    }
    assert Lower(t)[i..j] == Lower(t[i..j]);
    OccursInPart(anchor, Lower(t), i, j);
  }

  lemma {:induction false} BranchLiteralsUsable(subs: seq<Regex>, x: Text)
    requires x in BranchLiterals(subs)
    ensures |x| >= 3 && Lowercase(x)
  {
    var lit := LongestLiteral(subs[0]);
    if x != Lower(lit) {
      BranchLiteralsUsable(subs[1..], x);
    } else {
      LowerIs(lit, x);
    }
  }

  /** Anchors are words of at least three bytes without an upper-case letter. */
  lemma AnchorsUsable(re: Regex, x: Text)
    requires x in ExtractAll(re)
    ensures |x| >= 3 && Lowercase(x)
  {
    if Unwrap(re).Alternate? {
      BranchLiteralsUsable(Unwrap(re).subs, x);
    } else {
      LowerIs(LongestLiteral(re), x);
    }
  }

  // ---------------------------------------------------------------- exactly when the literal is required

  /** Trees made of literals, captures, concatenations and alternations only. */
  predicate Plain(re: Regex) {
    match re
    case Literal(_, _) => true
    case Capture(sub) => Plain(sub)
    case Concat(subs) => forall k :: 0 <= k < |subs| ==> Plain(subs[k])
    case Alternate(subs) => forall k :: 0 <= k < |subs| ==> Plain(subs[k])
    case _ => false
  }

  function WordsInTurn(subs: seq<Regex>): set<Text>
    requires forall k :: 0 <= k < |subs| ==> Plain(subs[k])
    decreases subs, 0
  {
    if subs == [] then {[]}
    else
      var heads, tails := WordsOf(subs[0]), WordsInTurn(subs[1..]);
      set u, v | u in heads && v in tails :: u + v
  }

  function WordsOfAny(subs: seq<Regex>): set<Text>
    requires forall k :: 0 <= k < |subs| ==> Plain(subs[k])
    decreases subs, 0
  {
    if subs == [] then {} else WordsOf(subs[0]) + WordsOfAny(subs[1..])
  }

  /** The finitely many lower-cased words of a plain tree. */
  function WordsOf(re: Regex): set<Text>
    requires Plain(re)
    decreases re, 1
  {
    match re
    case Literal(runes, _) => {Lower(runes)}
    case Capture(sub) => WordsOf(sub)
    case Concat(subs) => WordsInTurn(subs)
    case Alternate(subs) => WordsOfAny(subs)
  }

  lemma {:induction false} AnyHas(subs: seq<Regex>, w: Text) returns (k: nat)
    requires (forall m :: 0 <= m < |subs| ==> Plain(subs[m])) && w in WordsOfAny(subs)
    ensures k < |subs| && w in WordsOf(subs[k])
  {
    if w in WordsOf(subs[0]) {
      k := 0;
    } else {
      k := AnyHas(subs[1..], w);
      k := k + 1;
    }
  }

  lemma {:induction false} AnyTakes(subs: seq<Regex>, k: nat, w: Text)
    requires (forall m :: 0 <= m < |subs| ==> Plain(subs[m])) && k < |subs| && w in WordsOf(subs[k])
    ensures w in WordsOfAny(subs)
  {
    if k > 0 {
      AnyTakes(subs[1..], k - 1, w);
    }
  }

  lemma {:induction false} SpansAllIsWord(subs: seq<Regex>, t: Text, i: nat, j: nat)
    requires (forall k :: 0 <= k < |subs| ==> Plain(subs[k])) && i <= j <= |t| && SpansAll(subs, t, i, j)
    ensures Lower(t[i..j]) in WordsInTurn(subs)
    decreases subs, 0
  {
    if subs == [] {
      assert Lower(t[i..j]) == [];
    } else {
      var k: nat :| i <= k <= j && Spans(subs[0], t, i, k) && SpansAll(subs[1..], t, k, j);
      SpanIsWord(subs[0], t, i, k);
      SpansAllIsWord(subs[1..], t, k, j);
      assert t[i..j] == t[i..k] + t[k..j];
      LowerConcat(t[i..k], t[k..j]);
    }
  }

  lemma {:induction false} SpanIsWord(re: Regex, t: Text, i: nat, j: nat)
    requires Plain(re) && i <= j <= |t| && Spans(re, t, i, j)
    ensures Lower(t[i..j]) in WordsOf(re)
    decreases re, 1
  {
    match re
    case Literal(runes, fold) =>
    case Capture(sub) => SpanIsWord(sub, t, i, j);
    case Concat(subs) => SpansAllIsWord(subs, t, i, j);
    case Alternate(subs) =>
      var k :| 0 <= k < |subs| && Spans(subs[k], t, i, j);
      SpanIsWord(subs[k], t, i, j);
      AnyTakes(subs, k, Lower(t[i..j]));
  }

  /** `re` matches `t` whatever stands around it. */
  ghost predicate MatchesAnywhere(re: Regex, t: Text) {
    forall pre: Text, post: Text :: Spans(re, pre + t + post, |pre|, |pre| + |t|)
  }

  ghost predicate AllMatchAnywhere(subs: seq<Regex>, t: Text) {
    forall pre: Text, post: Text :: SpansAll(subs, pre + t + post, |pre|, |pre| + |t|)
  }

  lemma SpansJoin(subs: seq<Regex>, a: Text, b: Text, pre: Text, post: Text)
    requires subs != [] && MatchesAnywhere(subs[0], a) && AllMatchAnywhere(subs[1..], b)
    ensures SpansAll(subs, pre + (a + b) + post, |pre|, |pre| + |a + b|)
  {
    var whole := pre + (a + b) + post;
    var k := |pre| + |a|;
    assert Spans(subs[0], whole, |pre|, k) by {
      assert pre + a + (b + post) == whole;
      assert Spans(subs[0], pre + a + (b + post), |pre|, |pre| + |a|);
    }
    assert SpansAll(subs[1..], whole, k, k + |b|) by {
      assert (pre + a) + b + post == whole;
      assert SpansAll(subs[1..], (pre + a) + b + post, |pre + a|, |pre + a| + |b|);
    }
  }

  lemma {:induction false} WordIsSpanAll(subs: seq<Regex>, w: Text) returns (t: Text)
    requires (forall k :: 0 <= k < |subs| ==> Plain(subs[k])) && w in WordsInTurn(subs)
    ensures Lower(t) == w && AllMatchAnywhere(subs, t)
    decreases subs, 0
  {
    if subs == [] {
      t := [];
    } else {
      var u, v :| u in WordsOf(subs[0]) && v in WordsInTurn(subs[1..]) && w == u + v;
      var a := WordIsSpan(subs[0], u);
      var b := WordIsSpanAll(subs[1..], v);
      t := a + b;
      LowerConcat(a, b);
      forall pre: Text, post: Text
        ensures SpansAll(subs, pre + t + post, |pre|, |pre| + |t|)
      {
        SpansJoin(subs, a, b, pre, post);
      }
    }
  }

  lemma {:induction false} WordIsSpan(re: Regex, w: Text) returns (t: Text)
    requires Plain(re) && w in WordsOf(re)
    ensures Lower(t) == w && MatchesAnywhere(re, t)
    decreases re, 1
  {
    match re
    case Literal(runes, fold) =>
      t := runes;
      forall pre: Text, post: Text
        ensures Spans(re, pre + t + post, |pre|, |pre| + |t|)
      {
        assert (pre + t + post)[|pre|..|pre| + |t|] == t;
      }
    case Capture(sub) =>
      t := WordIsSpan(sub, w);
      forall pre: Text, post: Text
        ensures Spans(re, pre + t + post, |pre|, |pre| + |t|)
      {
        assert Spans(sub, pre + t + post, |pre|, |pre| + |t|);
      }
    case Concat(subs) =>
      t := WordIsSpanAll(subs, w);
      forall pre: Text, post: Text
        ensures Spans(re, pre + t + post, |pre|, |pre| + |t|)
      {
        assert SpansAll(subs, pre + t + post, |pre|, |pre| + |t|);
      }
    case Alternate(subs) =>
      var k := AnyHas(subs, w);
      t := WordIsSpan(subs[k], w);
      forall pre: Text, post: Text
        ensures Spans(re, pre + t + post, |pre|, |pre| + |t|)
      {
        assert Spans(subs[k], pre + t + post, |pre|, |pre| + |t|);
      }
  }

  ghost predicate HasAnchor(re: Regex, w: Text) {
    exists x :: x in ExtractAll(re) && Occurs(x, w)
  }

  /** The extractor's promise for a pattern: no match without one of its anchors. */
  ghost predicate AnchorSound(re: Regex) {
    forall t :: Matches(re, t) ==> HasAnchor(re, Lower(t))
  }

  /** Every word of the tree contains an anchor: a finite check. */
  ghost predicate WordsAnchored(re: Regex)
    requires Plain(re)
  {
    forall w :: w in WordsOf(re) ==> HasAnchor(re, w)
  }

  lemma WordMatches(re: Regex, w: Text) returns (t: Text)
    requires Plain(re) && w in WordsOf(re)
    ensures Lower(t) == w && Matches(re, t)
  {
    t := WordIsSpan(re, w);
    var none: Text := [];
    assert none + t + none == t;
    assert Spans(re, none + t + none, |none|, |none| + |t|);
    assert Spans(re, t, 0, |t|);
  }

  lemma MatchHasWord(re: Regex, t: Text) returns (w: Text)
    requires Plain(re) && Matches(re, t)
    ensures w in WordsOf(re) && forall x :: Occurs(x, w) ==> Occurs(x, Lower(t))
  {
    var i: nat, j: nat :| i <= j <= |t| && Spans(re, t, i, j);
    SpanIsWord(re, t, i, j);
    w := Lower(t[i..j]);
    assert w == Lower(t)[i..j];
    forall x | Occurs(x, w)
      ensures Occurs(x, Lower(t))
    {
      OccursInPart(x, Lower(t), i, j);
    }
  }

  /** For plain trees the promise holds exactly when every word of the tree contains an anchor. */
  lemma PlainSoundExactly(re: Regex)
    requires Plain(re)
    ensures AnchorSound(re) <==> WordsAnchored(re)
  {
    if AnchorSound(re) {
      forall w | w in WordsOf(re)
        ensures HasAnchor(re, w)
      {
        var t := WordMatches(re, w);
      }
    }
    if WordsAnchored(re) {
      forall t | Matches(re, t)
        ensures HasAnchor(re, Lower(t))
      {
        var w := MatchHasWord(re, t);
        assert HasAnchor(re, w);
      }
    }
  }

  const FOO: Text := [102, 111, 111]
  const BARBAZ: Text := [98, 97, 114, 98, 97, 122]
  const INNER := Alternate([Literal(FOO, false), Literal(BARBAZ, false)])
  const PATTERN := Concat([Literal([120], false), INNER])
  const INPUT: Text := [120, 98, 97, 114, 98, 97, 122]

  lemma PatternAnchor()
    ensures ExtractAll(PATTERN) == [FOO]
  {
    var none: Text := [];
    assert ShortestBranch([Literal(BARBAZ, false)], false, FOO) == FOO;
    assert ShortestBranch(INNER.subs, true, none) == FOO by {
      assert INNER.subs[1..] == [Literal(BARBAZ, false)];
    }
    assert LongestLiteral(INNER) == FOO;
    assert none + [120] == [120];
    assert ScanConcat([INNER], none, [120]) == ScanConcat([], FOO, none) by {
      assert [INNER][1..] == [];
    }
    assert ScanConcat(PATTERN.subs, none, none) == ScanConcat([INNER], none, none + [120]) by {
      assert PATTERN.subs[1..] == [INNER];
    }
    assert LongestLiteral(PATTERN) == FOO;
    assert Lower(FOO) == FOO;
  }

  lemma PatternMatches()
    ensures Matches(PATTERN, INPUT)
  {
    assert INPUT[0..1] == [120] && INPUT[1..7] == BARBAZ;
    assert Spans(PATTERN.subs[0], INPUT, 0, 1);
    assert Spans(INNER.subs[1], INPUT, 1, 7);
    assert Spans(INNER, INPUT, 1, 7);
    assert PATTERN.subs[1..] == [INNER] && [INNER][1..] == [];
    assert SpansAll([], INPUT, 7, 7);
    assert SpansAll([INNER], INPUT, 1, 7);
    assert Spans(PATTERN, INPUT, 0, 7);
  }

  /** "x(foo|barbaz)": the extractor answers "foo", yet "xbarbaz" matches without it. */
  lemma InnerAlternationUnsound()
    ensures ExtractAll(PATTERN) == [FOO] && Matches(PATTERN, INPUT) && !Occurs(FOO, Lower(INPUT)) && Plain(PATTERN)
  {
    PatternAnchor();
    PatternMatches();
    assert Lower(INPUT) == INPUT;
    forall k: nat
      ensures !OccursAt(FOO, INPUT, k)
    {
      if k + 3 <= |INPUT| {
        assert INPUT[k..k + 3][0] == INPUT[k] != 102;
      }
    }
  }

  // ---------------------------------------------------------------- the union pattern

  /** The union of the patterns matches exactly when one of them does. */
  lemma UnionMatches(parts: seq<Regex>, t: Text)
    ensures Matches(Alternate(parts), t) <==> exists k :: 0 <= k < |parts| && Matches(parts[k], t)
  {
    if Matches(Alternate(parts), t) {
      var i: nat, j: nat :| i <= j <= |t| && Spans(Alternate(parts), t, i, j);
      var k :| 0 <= k < |parts| && Spans(parts[k], t, i, j);
      assert Matches(parts[k], t);
    }
    if k :| 0 <= k < |parts| && Matches(parts[k], t) {
      var i: nat, j: nat :| i <= j <= |t| && Spans(parts[k], t, i, j);
      assert Spans(Alternate(parts), t, i, j);
    }
  }
}
