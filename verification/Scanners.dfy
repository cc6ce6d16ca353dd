/** The hand-tuned byte scanners for social security and card numbers, against declarative occurrence relations. */
module Scanners {
  import opened Bytes
  import Luhn

  datatype ByteMatch = ByteMatch(start: nat, end: nat)

  const DASH := '-' as Byte
  const SPACE := ' ' as Byte

  predicate AllDigits(t: Text) {
    forall i :: 0 <= i < |t| ==> IsDigit(t[i])
  }

  predicate CleanStart(t: Text, s: nat) {
    s == 0 || s > |t| || !IsWord(t[s - 1])
  }

  predicate CleanEnd(t: Text, e: nat) {
    e >= |t| || !IsWord(t[e])
  }

  /** Matches in ascending order, none overlapping the next. */
  ghost predicate Ascending(ms: seq<ByteMatch>) {
    && (forall i :: 0 <= i < |ms| ==> ms[i].start < ms[i].end)
    && (forall i, j :: 0 <= i < j < |ms| ==> ms[i].end <= ms[j].start)
  }

  // ---------------------------------------------------------------- social security numbers

  /** A word-bounded DDD-DD-DDDD starts at `k`. */
  predicate SsnAt(t: Text, k: nat) {
    && k + 11 <= |t|
    && AllDigits(t[k..k + 3]) && t[k + 3] == DASH
    && AllDigits(t[k + 4..k + 6]) && t[k + 6] == DASH
    && AllDigits(t[k + 7..k + 11])
    && CleanStart(t, k) && CleanEnd(t, k + 11)
  }

  /** No occurrence starts within another or right after it, so the scanner's jump past a match loses nothing. */
  lemma SsnNoneInside(t: Text, k: nat)
    requires SsnAt(t, k)
    ensures forall m :: k < m <= k + 11 ==> !SsnAt(t, m)
  {
    forall m | k < m <= k + 11
      ensures !SsnAt(t, m)
    {
      if m == k + 3 {
        assert IsDigit(t[k + 9]);
      } else if m <= k + 7 {
        assert IsDigit(t[m + 3]);
      } else {
        assert IsDigit(t[m - 1]);
      }
    }
  }

  /** `found` lists, in order, exactly the occurrences that start before `k`. */
  ghost predicate SsnsBelow(t: Text, found: seq<ByteMatch>, k: int) {
    && Ascending(found)
    && (forall m :: m in found ==> m.start < k && SsnAt(t, m.start) && m.end == m.start + 11)
    && (forall j: nat :: j < k && SsnAt(t, j) ==> ByteMatch(j, j + 11) in found)
  }

  lemma SsnReport(t: Text, found: seq<ByteMatch>, k: nat)
    requires SsnsBelow(t, found, k) && SsnAt(t, k)
    ensures SsnsBelow(t, found + [ByteMatch(k, k + 11)], k + 8)
  {
    var more := found + [ByteMatch(k, k + 11)];
    SsnNoneInside(t, k);
    forall m | m in found
      ensures m.end <= k
    {
      SsnNoneInside(t, m.start);
    }
    forall j: nat | j < k + 8 && SsnAt(t, j)
      ensures ByteMatch(j, j + 11) in more
    {
      if j < k {
        assert ByteMatch(j, j + 11) in found;
      } else {
        assert more[|found|] == ByteMatch(k, k + 11);
      }
    }
  }

  lemma SsnMiss(t: Text, found: seq<ByteMatch>, k: nat)
    requires SsnsBelow(t, found, k) && !SsnAt(t, k)
    ensures SsnsBelow(t, found, k + 1)
  {
  }

  lemma SsnsAll(t: Text, found: seq<ByteMatch>)
    requires (|t| < 11 && found == []) || exists k :: k > |t| - 11 && SsnsBelow(t, found, k)
    ensures Ascending(found)
    ensures forall m :: m in found <==> SsnAt(t, m.start) && m.end == m.start + 11
  {
    forall m: ByteMatch | SsnAt(t, m.start) && m.end == m.start + 11
      ensures m in found
    {
      assert m == ByteMatch(m.start, m.start + 11);
    }
  }

  lemma SsnHere(t: Text, i: nat)
    requires 3 <= i && i + 8 <= |t| && t[i] == DASH && t[i + 3] == DASH
    requires AllDigits(t[i - 3..i]) && AllDigits(t[i + 1..i + 3]) && AllDigits(t[i + 4..i + 8])
    requires !(i - 3 > 0 && IsWord(t[i - 4])) && !(i + 8 < |t| && IsWord(t[i + 8]))
    ensures SsnAt(t, i - 3)
  {
  }

  lemma SsnNotHere(t: Text, i: nat)
    requires 3 <= i && i + 8 <= |t|
    requires !(t[i] == DASH && t[i + 3] == DASH
               && AllDigits(t[i - 3..i]) && AllDigits(t[i + 1..i + 3]) && AllDigits(t[i + 4..i + 8])
               && !(i - 3 > 0 && IsWord(t[i - 4])) && !(i + 8 < |t| && IsWord(t[i + 8])))
    ensures !SsnAt(t, i - 3)
  {
  }

  /** Reports every occurrence and nothing else, appended to `out` in order. */
  method FindSsn(input: Text, out: seq<ByteMatch>) returns (res: seq<ByteMatch>)
    ensures out <= res && Ascending(res[|out|..])
    ensures forall m :: m in res[|out|..] <==> SsnAt(input, m.start) && m.end == m.start + 11
  {
    res := out;
    var n := |input|;
    var found: seq<ByteMatch> := [];
    if n >= 11 {
      var i := 3;
      while i <= n - 8
        invariant 3 <= i && SsnsBelow(input, found, i - 3)
      {
        if input[i] == DASH && input[i + 3] == DASH
           && AllDigits(input[i - 3..i]) && AllDigits(input[i + 1..i + 3]) && AllDigits(input[i + 4..i + 8])
           && !(i - 3 > 0 && IsWord(input[i - 4])) && !(i + 8 < n && IsWord(input[i + 8])) {
          SsnHere(input, i);
          SsnReport(input, found, i - 3);
          found := found + [ByteMatch(i - 3, i + 8)];
          i := i + 7;
        } else {
          SsnNotHere(input, i);
          SsnMiss(input, found, i - 3);
        }
        i := i + 1;
      }
    }
    SsnsAll(input, found);
    res := out + found;
    assert res[|out|..] == found;
  }

  // ---------------------------------------------------------------- card numbers

  predicate IsSeparator(b: Byte) {
    b == DASH || b == SPACE
  }

  lemma SeparatorsAre(b: Byte)
    ensures IsSeparator(b) <==> b as char in "- "
  {
    assert "- "[0] == '-' && "- "[1] == ' ';
  }

  /** Digits with at most one separator between two of them, starting and ending on a digit. */
  ghost predicate DigitRun(t: Text, s: nat, e: nat) {
    && s < e <= |t| && IsDigit(t[s]) && IsDigit(t[e - 1])
    && forall p :: s < p < e && !IsDigit(t[p]) ==>
       IsSeparator(t[p]) && IsDigit(t[p - 1]) && p + 1 < e && IsDigit(t[p + 1])
  }

  /** The digit values in a part of the text. */
  function DigitsIn(t: Text): seq<Luhn.Digit> {
    if t == [] then []
    else
      var init := DigitsIn(t[..|t| - 1]);
      var b := t[|t| - 1];
      if IsDigit(b) then init + [b as int - 48] else init
  }

  /** The run could go on past `e`. */
  predicate Continues(t: Text, e: nat) {
    e < |t| && (IsDigit(t[e]) || (IsSeparator(t[e]) && e + 1 < |t| && IsDigit(t[e + 1])))
  }

  /** The run could have begun before `s`. */
  predicate Preceded(t: Text, s: nat) {
    s >= 1 && s <= |t| && (IsDigit(t[s - 1]) || (IsSeparator(t[s - 1]) && s >= 2 && IsDigit(t[s - 2])))
  }

  /** A reportable card number: a bounded run of 13 to 19 digits with a valid checksum. */
  ghost predicate Card(t: Text, s: nat, e: nat) {
    && DigitRun(t, s, e) && CleanStart(t, s) && CleanEnd(t, e)
    && 13 <= |DigitsIn(t[s..e])| <= 19 && Luhn.Valid(DigitsIn(t[s..e]))
  }

  /** A card number that fills its whole digit run. */
  ghost predicate WholeCard(t: Text, s: nat, e: nat) {
    Card(t, s, e) && !Preceded(t, s) && !Continues(t, e)
  }

  lemma DigitsStep(t: Text, s: nat, p: nat)
    requires s <= p < |t|
    ensures DigitsIn(t[s..p + 1]) ==
            if IsDigit(t[p]) then DigitsIn(t[s..p]) + [t[p] as int - 48] else DigitsIn(t[s..p])
  {
    var part := t[s..p + 1];
    assert part[..|part| - 1] == t[s..p] && part[|part| - 1] == t[p];
  }

  lemma {:induction false} DigitsGrow(t: Text, s: nat, p: nat, e: nat)
    requires s <= p <= e <= |t|
    ensures |DigitsIn(t[s..p])| <= |DigitsIn(t[s..e])|
    decreases e - p
  {
    if p < e {
      DigitsGrow(t, s, p, e - 1);
      DigitsStep(t, s, e - 1);
    }
  }

  /** What the collecting loop has consumed: a digit run, or a digit run and one separator before a digit. */
  ghost predicate Collected(t: Text, s: nat, end: nat) {
    if end <= s then end == s < |t| && IsDigit(t[s])
    else DigitRun(t, s, end) || (DigitRun(t, s, end - 1) && end < |t| && IsSeparator(t[end - 1]) && IsDigit(t[end]))
  }

  /** The run was collected in full, or up to its nineteenth digit. */
  ghost predicate Stopped(t: Text, s: nat, e: nat) {
    DigitRun(t, s, e) && (|DigitsIn(t[s..e])| == 19 || !Continues(t, e))
  }

  /** The digits collected so far are those of the text behind the loop, and the nineteenth ends a run. */
  ghost predicate Collecting(t: Text, s: nat, end: nat, digits: seq<Luhn.Digit>) {
    && s <= end <= |t| && Collected(t, s, end) && digits == DigitsIn(t[s..end])
    && |digits| <= 19 && (|digits| == 19 ==> DigitRun(t, s, end))
  }

  lemma CollectDigit(t: Text, s: nat, end: nat, digits: seq<Luhn.Digit>)
    requires Collecting(t, s, end, digits) && end < |t| && |digits| < 19 && IsDigit(t[end])
    ensures Collecting(t, s, end + 1, digits + [t[end] as int - 48])
  {
    DigitsStep(t, s, end);
    assert DigitRun(t, s, end + 1);
  }

  lemma CollectSeparator(t: Text, s: nat, end: nat, digits: seq<Luhn.Digit>)
    requires Collecting(t, s, end, digits) && end + 1 < |t| && |digits| < 19 && IsSeparator(t[end])
             && IsDigit(t[end + 1])
    ensures Collecting(t, s, end + 1, digits)
  {
    DigitsStep(t, s, end);
    assert DigitRun(t, s, end);
  }

  lemma CollectEnds(t: Text, s: nat, end: nat, digits: seq<Luhn.Digit>)
    requires Collecting(t, s, end, digits) && (|digits| == 19 || !Continues(t, end))
    ensures Stopped(t, s, end)
  {
  }

  /** Collects at most 19 digits from `s`, stepping over single separators. */
  method Collect(t: Text, s: nat) returns (digits: seq<Luhn.Digit>, end: nat)
    requires s < |t| && IsDigit(t[s])
    ensures Stopped(t, s, end) && digits == DigitsIn(t[s..end]) && |digits| <= 19
  {
    digits, end := [], s;
    assert t[s..s] == [];
    while end < |t| && |digits| < 19
      invariant Collecting(t, s, end, digits)
    {
      var c := t[end];
      if IsDigit(c) {
        CollectDigit(t, s, end, digits);
        digits := digits + [c as int - 48];
        end := end + 1;
      } else if IsSeparator(c) && end + 1 < |t| && IsDigit(t[end + 1]) {
        CollectSeparator(t, s, end, digits);
        end := end + 1;
      } else {
        break;
      }
    }
    CollectEnds(t, s, end, digits);
  }

  /** A run cut after one of its digits can go on. */
  lemma RunGoesOn(t: Text, s: nat, end: nat, e: nat)
    requires DigitRun(t, s, e) && s < end < e && IsDigit(t[end - 1])
    ensures Continues(t, end)
  {
  }

  lemma LastDigitCounts(t: Text, s: nat, end: nat, e: nat)
    requires s <= end < e <= |t| && IsDigit(t[e - 1])
    ensures |DigitsIn(t[s..end])| < |DigitsIn(t[s..e])|
  {
    DigitsStep(t, s, e - 1);
    DigitsGrow(t, s, end, e - 1);
  }

  /** The collecting loop, started where a whole card starts, ends where it ends. */
  lemma CollectReaches(t: Text, s: nat, end: nat, e: nat)
    requires Stopped(t, s, end) && WholeCard(t, s, e)
    ensures end == e
  {
    if end < e {
      RunGoesOn(t, s, end, e);
      LastDigitCounts(t, s, end, e);
    } else if e < end {
      RunGoesOn(t, s, e, end);
    }
  }

  /** No whole card starts strictly inside a collected run. */
  lemma NoStartInside(t: Text, s: nat, end: nat, k: nat)
    requires DigitRun(t, s, end) && s < k < end && IsDigit(t[k])
    ensures Preceded(t, k)
  {
    if !IsDigit(t[k - 1]) {
      assert s < k - 1;
    }
  }

  /** `found` lists cards in order, none reaching past `i`, and every whole card that starts before `i`. */
  ghost predicate CardsBelow(t: Text, found: seq<ByteMatch>, i: nat) {
    && Ascending(found)
    && (forall m :: m in found ==> m.end <= i && Card(t, m.start, m.end) && Stopped(t, m.start, m.end))
    && (forall s: nat, e: nat :: WholeCard(t, s, e) && s < i ==> ByteMatch(s, e) in found)
  }

  lemma NoCardHere(t: Text, found: seq<ByteMatch>, i: nat)
    requires i < |t| && CardsBelow(t, found, i) && (!IsDigit(t[i]) || !CleanStart(t, i))
    ensures CardsBelow(t, found, i + 1)
  {
  }

  lemma CardReport(t: Text, found: seq<ByteMatch>, i: nat, end: nat)
    requires CardsBelow(t, found, i) && Card(t, i, end) && Stopped(t, i, end)
    ensures CardsBelow(t, found + [ByteMatch(i, end)], end)
  {
    var more := found + [ByteMatch(i, end)];
    forall s: nat, e: nat | WholeCard(t, s, e) && s < end
      ensures ByteMatch(s, e) in more
    {
      if s < i {
        assert ByteMatch(s, e) in found;
      } else if s == i {
        CollectReaches(t, i, end, e);
        assert more[|found|] == ByteMatch(i, end);
      } else {
        NoStartInside(t, i, end, s);
      }
    }
  }

  lemma CardMiss(t: Text, found: seq<ByteMatch>, i: nat, end: nat)
    requires CardsBelow(t, found, i) && Stopped(t, i, end) && !Card(t, i, end)
    ensures CardsBelow(t, found, end)
  {
    forall s: nat, e: nat | WholeCard(t, s, e) && s < end
      ensures ByteMatch(s, e) in found
    {
      if s == i {
        CollectReaches(t, i, end, e);
      } else if s > i {
        NoStartInside(t, i, end, s);
      }
    }
  }

  lemma CardsAll(t: Text, found: seq<ByteMatch>)
    requires CardsBelow(t, found, |t|)
    ensures Ascending(found)
    ensures forall m :: m in found ==> Card(t, m.start, m.end) && Stopped(t, m.start, m.end)
    ensures forall s: nat, e: nat :: WholeCard(t, s, e) ==> ByteMatch(s, e) in found
  {
  }

  /**
   Every reported span is a bounded, checksummed run of 13 to 19 digits, either whole or cut at the
   nineteenth digit; every whole card is reported; spans ascend without overlap.
   */
  method FindCreditCard(input: Text, out: seq<ByteMatch>) returns (res: seq<ByteMatch>)
    ensures out <= res && Ascending(res[|out|..])
    ensures forall m :: m in res[|out|..] ==> Card(input, m.start, m.end) && Stopped(input, m.start, m.end)
    ensures forall s: nat, e: nat :: WholeCard(input, s, e) ==> ByteMatch(s, e) in res[|out|..]
  {
    var n := |input|;
    var found: seq<ByteMatch> := [];
    var i := 0;
    while i < n
      invariant 0 <= i <= n && CardsBelow(input, found, i)
    {
      if !IsDigit(input[i]) {
        NoCardHere(input, found, i);
        i := i + 1;
      } else if i > 0 && IsWord(input[i - 1]) {
        NoCardHere(input, found, i);
        i := i + 1;
      } else {
        var digits, end := Collect(input, i);
        var ok := Luhn.LuhnValid(digits);
        if 13 <= |digits| <= 19 && (end >= n || !IsWord(input[end])) && ok {
          CardReport(input, found, i, end);
          found := found + [ByteMatch(i, end)];
        } else {
          CardMiss(input, found, i, end);
        }
        i := end;
      }
    }
    CardsAll(input, found);
    res := out + found;
    assert res[|out|..] == found;
  }
}
