/**
 What memory selection promises, in the terms of the memories themselves: which are safe, how they
 are ranked, what the context says, and why a relevant one was left out.
 */
module MemoryLaws {
  import opened Basics
  import opened Sorting
  import opened MemorySelection

  // ----- keys -----

  lemma {:induction false} SplitShape(s: string)
    ensures Split(s, '.') != []
    ensures Split(s, '.')[0] == [] <==> s == [] || s[0] == '.'
    ensures |Split(s, '.')| >= 2 <==> '.' in s
    decreases |s|
  {
    if s != [] {
      SplitShape(s[1..]);
      assert s == [s[0]] + s[1..];
    }
  }

  /** Every dot is followed by something that is not a dot. */
  predicate DotsFollowed(s: string) {
    forall i :: 0 <= i < |s| && s[i] == '.' ==> i + 1 < |s| && s[i + 1] != '.'
  }

  predicate LaterPartsFilled(parts: seq<string>) {
    forall k :: 1 <= k < |parts| ==> parts[k] != []
  }

  lemma DotsFollowedCons(s: string)
    requires s != []
    ensures DotsFollowed(s) <==> (s[0] == '.' ==> s[1..] != [] && s[1] != '.') && DotsFollowed(s[1..])
  {
    var t := s[1..];
    assert forall i :: 0 <= i < |t| ==> t[i] == s[i + 1];
    if DotsFollowed(t) && (s[0] == '.' ==> t != [] && s[1] != '.') {
      forall i | 0 <= i < |s| && s[i] == '.' ensures i + 1 < |s| && s[i + 1] != '.' {
        if i > 0 { assert t[i - 1] == '.'; }
      }
    }
    if DotsFollowed(s) {
      forall i | 0 <= i < |t| && t[i] == '.' ensures i + 1 < |t| && t[i + 1] != '.' {
        assert s[i + 1] == '.';
      }
    }
  }

  lemma {:induction false} LaterPartsExactly(s: string)
    ensures LaterPartsFilled(Split(s, '.')) <==> DotsFollowed(s)
    decreases |s|
  {
    if s != [] {
      var rest := Split(s[1..], '.');
      LaterPartsExactly(s[1..]);
      SplitShape(s[1..]);
      DotsFollowedCons(s);
      hide DotsFollowed;
      if s[0] == '.' {
        assert Split(s, '.') == [[]] + rest;
        LaterAfter([], rest);
      } else {
        assert Split(s, '.') == [[s[0]] + rest[0]] + rest[1..];
        assert forall k :: 1 <= k < |rest| ==> Split(s, '.')[k] == rest[k];
      }
    }
  }

  lemma LaterAfter(first: string, rest: seq<string>)
    requires rest != []
    ensures LaterPartsFilled([first] + rest) <==> rest[0] != [] && LaterPartsFilled(rest)
  {
    var parts := [first] + rest;
    assert forall k :: 0 <= k < |rest| ==> parts[k + 1] == rest[k];
    if LaterPartsFilled(parts) {
      forall k | 0 <= k < |rest| ensures rest[k] != [] { assert parts[k + 1] != []; }
    }
    if rest[0] != [] && LaterPartsFilled(rest) {
      forall k | 1 <= k < |parts| ensures parts[k] != [] { assert parts[k] == rest[k - 1]; }
    }
  }

  predicate InParts(parts: seq<string>) {
    forall k, i :: 0 <= k < |parts| && 0 <= i < |parts[k]| ==> KeyChar(parts[k][i])
  }

  lemma {:induction false} CharsExactly(s: string)
    ensures InParts(Split(s, '.')) <==> forall i :: 0 <= i < |s| ==> s[i] == '.' || KeyChar(s[i])
    decreases |s|
  {
    if s != [] {
      var rest, parts := Split(s[1..], '.'), Split(s, '.');
      CharsExactly(s[1..]);
      SplitShape(s[1..]);
      assert forall i :: 0 <= i < |s[1..]| ==> s[1..][i] == s[i + 1];
      assert (forall i :: 0 <= i < |s| ==> s[i] == '.' || KeyChar(s[i])) <==>
             (s[0] == '.' || KeyChar(s[0]))
             && (forall i :: 0 <= i < |s[1..]| ==> s[1..][i] == '.' || KeyChar(s[1..][i])) by {
        assert forall i :: 1 <= i < |s| ==> s[i] == s[1..][i - 1];
      }
      hide KeyChar;
      if s[0] == '.' {
        assert parts == [[]] + rest;
        assert forall k :: 0 <= k < |rest| ==> parts[k + 1] == rest[k];
        assert forall k :: 1 <= k < |parts| ==> parts[k] == rest[k - 1];
      } else {
        assert parts == [[s[0]] + rest[0]] + rest[1..];
        assert parts[0] == [s[0]] + rest[0] && forall k :: 1 <= k < |rest| ==> parts[k] == rest[k];
        assert parts[0][0] == s[0] && forall i :: 0 <= i < |rest[0]| ==> parts[0][i + 1] == rest[0][i];
        assert forall i :: 1 <= i < |parts[0]| ==> parts[0][i] == rest[0][i - 1];
      }
    }
  }

  /** A key is at most 80 characters long: parts of lower-case letters, digits, underscores and hyphens, joined by
      single dots, of which there is at least one. */
  ghost predicate DottedKey(key: string) {
    && |key| <= 80 && '.' in key
    && (forall i :: 0 <= i < |key| ==>
          'a' <= key[i] <= 'z' || '0' <= key[i] <= '9' || key[i] == '_' || key[i] == '-' || key[i] == '.')
    && key[0] != '.' && DotsFollowed(key)
  }

  lemma ValidKeyExactly(key: string)
    ensures ValidKey(key) <==> DottedKey(key)
  {
    var parts := Split(key, '.');
    SplitShape(key);
    LaterPartsExactly(key);
    CharsExactly(key);
    PartsAll(parts);
    hide DotsFollowed, Split;
  }

  lemma PartsAll(parts: seq<string>)
    requires parts != []
    ensures (forall p :: p in parts ==> p != [] && forall i :: 0 <= i < |p| ==> KeyChar(p[i]))
       <==> parts[0] != [] && LaterPartsFilled(parts) && InParts(parts)
  {
    hide KeyChar;
    if forall p :: p in parts ==> p != [] && forall i :: 0 <= i < |p| ==> KeyChar(p[i]) {
      forall k | 0 <= k < |parts| ensures parts[k] != [] { assert parts[k] in parts; }
      forall k, i | 0 <= k < |parts| && 0 <= i < |parts[k]| ensures KeyChar(parts[k][i]) { assert parts[k] in parts; }
    }
  }

  /** What makes a memory safe to use. */
  lemma SafeExactly(m: Memory, now: nat, j: Judge)
    ensures Safe(m, now, j) <==>
              && 0.65 <= m.confidence <= 1.0 && 0.0 <= m.importance <= 1.0
              && (m.expiresAt.None? || now < m.expiresAt.value)
              && m.kind in ["preference", "profile", "goal", "constraint", "plan", "experience"]
              && DottedKey(m.key)
              && !j.blank(m.content) && |m.content| <= 240
              && !j.unwanted(m.content) && !j.sensitiveTerms(j.lower(m.content))
              && !exists from, upto :: 0 <= from <= upto <= |j.lower(m.content)|
                                       && Digits(j.lower(m.content), from, upto) >= 12
                                       && Unbroken(j.lower(m.content), from, upto)
  {
    ValidKeyExactly(m.key);
    hide ValidKey, DottedKey, Unbroken, Digits;
  }

  // ----- the ranking -----

  /** Text order: at the first difference the smaller code point, or the end of the text. */
  lemma {:induction false} TextBeforeExactly(a: string, b: string)
    ensures TextBefore(a, b) <==>
            exists k :: 0 <= k <= |a| && k < |b| && a[..k] == b[..k] && (k == |a| || a[k] < b[k])
    decreases |a|
  {
    if a != [] && b != [] {
      TextBeforeExactly(a[1..], b[1..]);
      if k :| && 0 <= k <= |a[1..]| && k < |b[1..]| && a[1..][..k] == b[1..][..k]
              && (k == |a[1..]| || a[1..][k] < b[1..][k]) {
        if a[0] == b[0] {
          assert a[..k + 1] == [a[0]] + a[1..][..k] && b[..k + 1] == [b[0]] + b[1..][..k];
        }
      }
      if a[0] < b[0] { assert a[..0] == b[..0]; }
      if k :| 0 <= k <= |a| && k < |b| && a[..k] == b[..k] && (k == |a| || a[k] < b[k]) {
        if k > 0 {
          assert a[..k][0] == b[..k][0];
          assert a[1..][..k - 1] == a[..k][1..] && b[1..][..k - 1] == b[..k][1..];
        }
      }
    } else if b != [] {
      assert a[..0] == b[..0];
    }
  }

  /** No worse: specific matches before broad ones, and among equals the higher score. */
  ghost predicate NoWorse(x: Scored, y: Scored) {
    (x.specific || !y.specific) && (x.specific == y.specific ==> x.score >= y.score)
  }

  /** The ranking puts specific matches first, then higher scores, then newer memories, then smaller keys, then
      smaller ids. */
  lemma RankedInOrder(candidates: seq<Memory>, now: nat, j: Judge, i: nat, k: nat)
    requires DistinctIds(candidates) && i < k < |Ranked(candidates, now, j)|
    ensures var x, y := Ranked(candidates, now, j)[i], Ranked(candidates, now, j)[k];
            && NoWorse(x, y)
            && (x.specific == y.specific && x.score == y.score ==>
                  && x.item.updatedAt >= y.item.updatedAt
                  && (x.item.updatedAt == y.item.updatedAt ==>
                        && !TextBefore(y.item.key, x.item.key)
                        && (x.item.key == y.item.key ==> x.item.id <= y.item.id)))
  {
    RankedAscends(candidates, now, j);
    var x, y := Ranked(candidates, now, j)[i], Ranked(candidates, now, j)[k];
    TextTotal(x.item.key, y.item.key);
    TextTotal(x.item.key, x.item.key);
    hide Ranked;
  }

  // ----- why a memory was left out -----

  /** `x` does not fit after the chosen `front`: five are chosen, two broad matches are, or the topics of `x` are all
      covered, or the text would exceed 1200 characters or 300 tokens. */
  ghost predicate Blocked(front: seq<Scored>, x: Scored, j: Judge) {
    var text := HEADER + Lines(front, j) + Line(x, j);
    || |front| >= 5
    || (!x.specific && x.topics != {} && (BroadCount(front) >= 2 || x.topics <= BroadTopics(front)))
    || |text| > 1200
    || EstimateTokens(text) > 300
  }

  lemma BlockedExactly(p: Packing, x: Scored, j: Judge)
    requires WithinBudgets(p, j)
    ensures Blocked(p.chosen, x, j) <==> !Admissible(p, x, j)
  {
    hide Line, Lines, EstimateTokens, BroadCount, BroadTopics, AddsTopics;
  }

  /** The chosen items that are ranked before position `i`, and the rest. */
  lemma ChosenAround(ranked: seq<Scored>, i: nat, j: Judge)
    requires i < |ranked|
    ensures var n := |Pack(ranked[..i], j).chosen|;
            && n <= |Pack(ranked, j).chosen| && Pack(ranked, j).chosen[..n] == Pack(ranked[..i], j).chosen
            && (forall y :: y in Pack(ranked, j).chosen[..n] ==> y in ranked[..i])
            && (forall z :: z in Pack(ranked, j).chosen[n..] ==> z in ranked[i..])
  {
    hide Pack;
    var rest := PackExtends(ranked, i, j);
    PackWithinBudgets(ranked[..i], j);
  }

  ghost predicate Justified(chosen: seq<Scored>, n: nat, x: Scored, j: Judge)
    requires n <= |chosen|
  {
    && (forall y :: y in chosen[..n] ==> NoWorse(y, x))
    && (forall z :: z in chosen[n..] ==> NoWorse(x, z))
    && Blocked(chosen[..n], x, j)
  }

  ghost predicate InOrder(ranked: seq<Scored>) {
    forall i, k :: 0 <= i < k < |ranked| ==> NoWorse(ranked[i], ranked[k])
  }

  lemma RankedIsInOrder(candidates: seq<Memory>, now: nat, j: Judge)
    requires DistinctIds(candidates)
    ensures InOrder(Ranked(candidates, now, j))
  {
    hide Ranked, DistinctIds, NoWorse;
    forall i, k | 0 <= i < k < |Ranked(candidates, now, j)|
      ensures NoWorse(Ranked(candidates, now, j)[i], Ranked(candidates, now, j)[k])
    {
      RankedInOrder(candidates, now, j, i, k);
    }
  }

  lemma NoneWorseBefore(ranked: seq<Scored>, i: nat, s: seq<Scored>, t: seq<Scored>)
    requires InOrder(ranked) && i < |ranked|
    requires (forall y :: y in s ==> y in ranked[..i]) && (forall z :: z in t ==> z in ranked[i..])
    ensures forall y :: y in s ==> NoWorse(y, ranked[i])
    ensures forall z :: z in t ==> NoWorse(ranked[i], z)
  {
    forall y | y in s ensures NoWorse(y, ranked[i]) {
      var k :| 0 <= k < i && ranked[..i][k] == y;
    }
    forall z | z in t ensures NoWorse(ranked[i], z) {
      var k :| 0 <= k < |ranked[i..]| && ranked[i..][k] == z;
    }
  }

  lemma NotTakenIsJustified(ranked: seq<Scored>, i: nat, j: Judge)
    requires InOrder(ranked) && i < |ranked| && ranked[i] !in Pack(ranked, j).chosen
    ensures var n := |Pack(ranked[..i], j).chosen|;
            n <= |Pack(ranked, j).chosen| && Justified(Pack(ranked, j).chosen, n, ranked[i], j)
  {
    hide Pack, InOrder, NoWorse, Blocked, Admissible, WithinBudgets;
    var n := |Pack(ranked[..i], j).chosen|;
    ChosenAround(ranked, i, j);
    NoneWorseBefore(ranked, i, Pack(ranked, j).chosen[..n], Pack(ranked, j).chosen[n..]);
    PackWithinBudgets(ranked[..i], j);
    BlockedExactly(Pack(ranked[..i], j), ranked[i], j);
    NotTaken(ranked, i, j);
  }

  /** A newest safe relevant memory that was left out did not fit after those chosen ones that rank no worse, and all
      other chosen ones rank no better than it. */
  lemma LeftOutIsJustified(candidates: seq<Memory>, now: nat, j: Judge, x: Scored)
    requires DistinctIds(candidates) && NewestSafe(candidates, now, j, x.item)
    requires j.relevance(x.item) == Some(Relevance(x.score, x.specific, x.topics))
    requires x !in Chosen(candidates, now, j).chosen
    ensures var chosen := Chosen(candidates, now, j).chosen;
            exists n :: 0 <= n <= |chosen| && Justified(chosen, n, x, j)
  {
    RankedExactly(candidates, now, j, x);
    hide Ranked, NewestSafe, DistinctIds, InOrder, Justified;
    RankedIsInOrder(candidates, now, j);
    var ranked := Ranked(candidates, now, j);
    var i :| 0 <= i < |ranked| && ranked[i] == x;
    NotTakenIsJustified(ranked, i, j);
  }

  /** An item that is admissible at its turn is taken. */
  lemma NotTaken(ranked: seq<Scored>, i: nat, j: Judge)
    requires i < |ranked| && ranked[i] !in Pack(ranked, j).chosen
    ensures !Admissible(Pack(ranked[..i], j), ranked[i], j)
  {
    hide Admissible, Pack;
    var rest := GreedyByRank(ranked, i, j);
  }

  // ----- the text of the context -----

  ghost function Concatenated(parts: seq<string>): string {
    if parts == [] then "" else Concatenated(parts[..|parts| - 1]) + parts[|parts| - 1]
  }

  ghost function RenderedLines(chosen: seq<Scored>, j: Judge): seq<string> {
    seq(|chosen|, i requires 0 <= i < |chosen| =>
      j.render(chosen[i].item.key, if chosen[i].item.confidence < 0.85 then "uncertain" else "likely",
               chosen[i].item.content) + "\n")
  }

  lemma {:induction false} LinesAreRendered(chosen: seq<Scored>, j: Judge)
    ensures Lines(chosen, j) == Concatenated(RenderedLines(chosen, j))
    decreases |chosen|
  {
    if chosen != [] {
      var n := |chosen| - 1;
      LinesAreRendered(chosen[..n], j);
      assert RenderedLines(chosen, j)[..n] == RenderedLines(chosen[..n], j);
    }
  }

  /** ASCII characters count a quarter of a token, rounded up, all others one token each. */
  lemma {:induction false} AsciiCounts(s: string)
    ensures Ascii(s) == |set i | 0 <= i < |s| && s[i] as int < 128|
    decreases |s|
  {
    var all := set i | 0 <= i < |s| && s[i] as int < 128;
    if s != [] {
      var n := |s| - 1;
      var front := set i | 0 <= i < n && s[..n][i] as int < 128;
      AsciiCounts(s[..n]);
      assert all == if s[n] as int < 128 then front + {n} else front;
    } else {
      assert all == {};
    }
  }

  lemma TokensExactly(s: string)
    ensures var ascii := |set i | 0 <= i < |s| && s[i] as int < 128|;
            var quarters := EstimateTokens(s) - (|s| - ascii);
            quarters * 4 >= ascii && (quarters - 1) * 4 < ascii
  {
    AsciiCounts(s);
  }

  /** What is answered: nothing without signals or without a chosen memory; otherwise the header and one line for each
      chosen memory, in rank order, with their number and the token estimate. */
  lemma AnswerExactly(candidates: seq<Memory>, now: nat, signals: bool, j: Judge)
    requires DistinctIds(candidates)
    ensures var r := Select(candidates, now, signals, j);
            var chosen := Chosen(candidates, now, j).chosen;
            && (r.Some? <==> signals && chosen != [])
            && (r.Some? ==>
                  && r.value.text == HEADER + Concatenated(RenderedLines(chosen, j))
                  && r.value.count == |chosen| && r.value.tokens == EstimateTokens(r.value.text))
    ensures var chosen := Chosen(candidates, now, j).chosen;
            forall i, k :: 0 <= i < k < |chosen| ==> NoWorse(chosen[i], chosen[k])
  {
    var ranked := Ranked(candidates, now, j);
    var chosen := Chosen(candidates, now, j).chosen;
    PackWithinBudgets(ranked, j);
    LinesAreRendered(chosen, j);
    RankedIsInOrder(candidates, now, j);
    hide Ranked, DistinctIds, NoWorse;
    forall i, k | 0 <= i < k < |chosen| ensures NoWorse(chosen[i], chosen[k]) {
      var a, b := ChosenPositions(ranked, j, i, k);
    }
  }

  /** Chosen items keep the order of the ranking. */
  lemma {:induction false} ChosenPositions(ranked: seq<Scored>, j: Judge, i: nat, k: nat) returns (a: nat, b: nat)
    requires i < k < |Pack(ranked, j).chosen|
    ensures a < b < |ranked| && ranked[a] == Pack(ranked, j).chosen[i] && ranked[b] == Pack(ranked, j).chosen[k]
    decreases |ranked|
  {
    hide Admissible, Pack, NoWorse;
    LastPacked(ranked, j);
    var front := ranked[..|ranked| - 1];
    if k < |Pack(front, j).chosen| {
      a, b := ChosenPositions(front, j, i, k);
    } else {
      a := PositionOf(front, j, i);
      b := |ranked| - 1;
    }
  }

  lemma PositionOf(ranked: seq<Scored>, j: Judge, i: nat) returns (a: nat)
    requires i < |Pack(ranked, j).chosen|
    ensures a < |ranked| && ranked[a] == Pack(ranked, j).chosen[i]
  {
    hide Pack;
    PackWithinBudgets(ranked, j);
    hide WithinBudgets;
    assert Pack(ranked, j).chosen[i] in ranked;
    a :| 0 <= a < |ranked| && ranked[a] == Pack(ranked, j).chosen[i];
  }

  lemma LastPacked(ranked: seq<Scored>, j: Judge)
    ensures ranked == [] ==> Pack(ranked, j).chosen == []
    ensures ranked != [] ==>
              var front := Pack(ranked[..|ranked| - 1], j).chosen;
              Pack(ranked, j).chosen == front || Pack(ranked, j).chosen == front + [ranked[|ranked| - 1]]
  {
    hide Admissible;
  }
}
