/** Issue-key extraction: the scan for (?i)\b KEY-\d+ \b, deduplication, and the three fallbacks. */
module IssueKeys {
  import opened Domain

  // ----- characters -----

  predicate IsDigit(c: char) { '0' <= c <= '9' }

  predicate IsLetter(c: char) { 'a' <= c <= 'z' || 'A' <= c <= 'Z' }

  predicate IsWord(c: char) { IsLetter(c) || IsDigit(c) || c == '_' }

  function Upper(c: char): (u: char)
    ensures IsWord(c) <==> IsWord(u)
    ensures IsLetter(c) <==> IsLetter(u)
    ensures IsDigit(c) ==> u == c
    ensures u == '-' <==> c == '-'
  {
    if 'a' <= c <= 'z' then (c as int - 32) as char else c
  }

  function UpperAll(s: string): (r: string)
    ensures |r| == |s| && forall i :: 0 <= i < |s| ==> r[i] == Upper(s[i])
  {
    seq(|s|, i requires 0 <= i < |s| => Upper(s[i]))
  }

  // ----- the pattern -----

  /** A letter followed by letters, digits or underscores. */
  predicate ProjectKey(pk: string) {
    |pk| > 0 && IsLetter(pk[0]) && forall i :: 0 <= i < |pk| ==> IsWord(pk[i])
  }

  /** \b at position i: exactly one side is a word character. */
  predicate Boundary(t: string, i: nat)
    requires i <= |t|
  {
    (i > 0 && IsWord(t[i - 1])) != (i < |t| && IsWord(t[i]))
  }

  predicate HasPrefix(pk: string, t: string, i: nat) {
    i + |pk| <= |t| && UpperAll(t[i..i + |pk|]) == UpperAll(pk)
  }

  predicate AllDigits(s: string) {
    forall k :: 0 <= k < |s| ==> IsDigit(s[k])
  }

  /** t[i..j] is an occurrence of the pattern, wherever it lies and whatever else matches. */
  predicate Occurrence(pk: string, t: string, i: nat, j: nat) {
    && i + |pk| + 1 < j <= |t|
    && Boundary(t, i)
    && HasPrefix(pk, t, i)
    && t[i + |pk|] == '-'
    && AllDigits(t[i + |pk| + 1..j])
    && Boundary(t, j)
  }

  /** The end of the run of digits that starts at i. */
  function DigitsEnd(t: string, i: nat): (j: nat)
    requires i <= |t|
    ensures i <= j <= |t|
    ensures AllDigits(t[i..j])
    ensures j < |t| ==> !IsDigit(t[j])
    decreases |t| - i
  {
    if i < |t| && IsDigit(t[i]) then
      var j := DigitsEnd(t, i + 1);
      assert t[i..j] == [t[i]] + t[i + 1..j];
      j
    else i
  }

  lemma {:induction false} DigitsEndUnique(t: string, i: nat, j: nat)
    requires i <= j <= |t| && AllDigits(t[i..j]) && (j < |t| ==> !IsDigit(t[j]))
    ensures DigitsEnd(t, i) == j
    decreases j - i
  {
    if i < j {
      assert IsDigit(t[i..j][0]);
      assert t[i + 1..j] == t[i..j][1..];
      DigitsEndUnique(t, i + 1, j);
    }
  }

  /** What the engine finds at one start position: greedy digits, then the closing boundary. */
  function MatchAt(pk: string, t: string, i: nat): Option<nat>
    requires i <= |t|
  {
    if Boundary(t, i) && HasPrefix(pk, t, i) && i + |pk| < |t| && t[i + |pk|] == '-' then
      var start := i + |pk| + 1;
      var j := DigitsEnd(t, start);
      if j > start && Boundary(t, j) then Some(j) else None
    else None
  }

  /** Greediness costs nothing: at each start there is at most one occurrence, and it is the match. */
  lemma MatchIsOccurrence(pk: string, t: string, i: nat, j: nat)
    requires i <= |t|
    ensures Occurrence(pk, t, i, j) <==> MatchAt(pk, t, i) == Some(j)
  {
    if Occurrence(pk, t, i, j) {
      var start := i + |pk| + 1;
      assert IsDigit(t[start..j][j - 1 - start]);
      DigitsEndUnique(t, start, j);
    }
  }

  lemma MatchIsOccurrenceAll(pk: string, t: string, i: nat)
    requires i <= |t|
    ensures forall j: nat :: Occurrence(pk, t, i, j) <==> MatchAt(pk, t, i) == Some(j)
  {
    forall j: nat ensures Occurrence(pk, t, i, j) <==> MatchAt(pk, t, i) == Some(j) { MatchIsOccurrence(pk, t, i, j); }
  }

  /** Every character of an occurrence is a word character, except the hyphen. */
  lemma OccurrenceChars(pk: string, t: string, i: nat, j: nat, k: nat)
    requires ProjectKey(pk) && Occurrence(pk, t, i, j) && i <= k < j
    ensures if k < i + |pk| then IsWord(t[k]) else if k == i + |pk| then t[k] == '-' else IsDigit(t[k])
    ensures k == i ==> IsLetter(t[k])
  {
    if k < i + |pk| {
      assert UpperAll(t[i..i + |pk|])[k - i] == Upper(t[k]);
    } else if k > i + |pk| {
      assert t[k] == t[i + |pk| + 1..j][k - (i + |pk| + 1)];
    }
  }

  /** Two occurrences never overlap: a start needs a letter after a non-word character, and the only
      non-word character inside an occurrence is its hyphen, which a digit follows. */
  lemma OccurrencesDisjoint(pk: string, t: string, i: nat, j: nat, i': nat, j': nat)
    requires ProjectKey(pk) && Occurrence(pk, t, i, j) && Occurrence(pk, t, i', j') && i < i'
    ensures j < i'
  {
    OccurrenceChars(pk, t, i', j', i');
    OccurrenceChars(pk, t, i, j, j - 1);
    if i' < j {
      OccurrenceChars(pk, t, i, j, i');
      OccurrenceChars(pk, t, i, j, i' - 1);
    }
  }

  // ----- the scan and its reference -----

  function KeyAt(t: string, i: nat, j: nat): string
    requires i <= j <= |t|
  {
    UpperAll(t[i..j])
  }

  /** FindAllString: leftmost matches, the next search starting where the last match ended. */
  function Scan(pk: string, t: string, i: nat): seq<string>
    requires i <= |t|
    decreases |t| - i
  {
    match MatchAt(pk, t, i)
    case Some(j) => [KeyAt(t, i, j)] + Scan(pk, t, j)
    case None => if i == |t| then [] else Scan(pk, t, i + 1)
  }

  /** Reference: the occurrences at every start position, overlapping or not. */
  function All(pk: string, t: string, i: nat): seq<string>
    requires i <= |t|
    decreases |t| - i
  {
    if i == |t| then [] else Here(pk, t, i) + All(pk, t, i + 1)
  }

  function Here(pk: string, t: string, i: nat): seq<string>
    requires i <= |t|
  {
    match MatchAt(pk, t, i)
    case Some(j) => [KeyAt(t, i, j)]
    case None => []
  }

  /** Nothing starts inside a match. */
  lemma NoMatchInside(pk: string, t: string, i: nat, j: nat, from: nat)
    requires ProjectKey(pk) && i < from < j <= |t| && MatchAt(pk, t, i) == Some(j)
    ensures Here(pk, t, from) == []
  {
    MatchIsOccurrence(pk, t, i, j);
    if MatchAt(pk, t, from).Some? {
      var e := MatchAt(pk, t, from).value;
      MatchIsOccurrence(pk, t, from, e);
      OccurrencesDisjoint(pk, t, i, j, from, e);
    }
  }

  lemma {:induction false} AllSkipsMatch(pk: string, t: string, i: nat, j: nat, from: nat)
    requires ProjectKey(pk) && i < from <= j <= |t| && MatchAt(pk, t, i) == Some(j)
    ensures All(pk, t, from) == All(pk, t, j)
    decreases j - from
  {
    if from < j {
      NoMatchInside(pk, t, i, j, from);
      AllSkipsMatch(pk, t, i, j, from + 1);
    }
  }

  lemma {:induction false} ScanIsAll(pk: string, t: string, i: nat)
    requires ProjectKey(pk) && i <= |t|
    ensures Scan(pk, t, i) == All(pk, t, i)
    decreases |t| - i
  {
    match MatchAt(pk, t, i)
    case Some(j) =>
      AllSkipsMatch(pk, t, i, j, i + 1);
      ScanIsAll(pk, t, j);
    case None =>
      if i < |t| { ScanIsAll(pk, t, i + 1); }
  }

  // ----- deduplication -----

  /** Keep the first occurrence of each element, given those already seen. */
  function DedupFrom(s: seq<string>, seen: set<string>): seq<string> {
    if s == [] then []
    else if s[0] in seen then DedupFrom(s[1..], seen)
    else [s[0]] + DedupFrom(s[1..], seen + {s[0]})
  }

  function Dedup(s: seq<string>): seq<string> {
    DedupFrom(s, {})
  }

  lemma {:induction false} DedupMembers(s: seq<string>, seen: set<string>)
    ensures forall k :: k in DedupFrom(s, seen) <==> k in s && k !in seen
    ensures Distinct(DedupFrom(s, seen))
  {
    if s != [] {
      if s[0] in seen {
        DedupMembers(s[1..], seen);
      } else {
        DedupMembers(s[1..], seen + {s[0]});
      }
      assert forall k :: k in s <==> k == s[0] || k in s[1..];
    }
  }

  lemma {:induction false} DedupSameSeen(s: seq<string>, a: set<string>, b: set<string>)
    requires forall k :: k in s ==> (k in a <==> k in b)
    ensures DedupFrom(s, a) == DedupFrom(s, b)
  {
    if s != [] {
      assert forall k :: k in s[1..] ==> k in s;
      if s[0] in a { DedupSameSeen(s[1..], a, b); } else { DedupSameSeen(s[1..], a + {s[0]}, b + {s[0]}); }
    }
  }

  lemma {:induction false} DedupOfDistinct(s: seq<string>, seen: set<string>)
    requires Distinct(s) && forall k :: k in s ==> k !in seen
    ensures DedupFrom(s, seen) == s
  {
    if s != [] {
      assert forall k :: k in s[1..] ==> k in s && k != s[0];
      DedupOfDistinct(s[1..], seen + {s[0]});
    }
  }

  lemma {:induction false} DedupAppend(a: seq<string>, b: seq<string>, seen: set<string>)
    ensures DedupFrom(a + b, seen) == DedupFrom(a, seen) + DedupFrom(b, seen + Elements(a))
  {
    if a == [] {
      assert a + b == b && seen + Elements(a) == seen;
    } else {
      assert (a + b)[1..] == a[1..] + b;
      if a[0] in seen {
        DedupAppend(a[1..], b, seen);
        assert seen + Elements(a) == seen + Elements(a[1..]);
      } else {
        DedupAppend(a[1..], b, seen + {a[0]});
        assert seen + Elements(a) == seen + {a[0]} + Elements(a[1..]);
      }
    }
  }

  /** Deduplicating pieces first makes no difference to the deduplicated whole. */
  lemma DedupInPieces(a: seq<string>, b: seq<string>)
    ensures Dedup(a + b) == Dedup(Dedup(a) + Dedup(b))
  {
    DedupAppend(a, b, {});
    DedupAppend(Dedup(a), Dedup(b), {});
    DedupMembers(a, {});
    DedupMembers(b, {});
    DedupOfDistinct(Dedup(a), {});
    assert {} + Elements(Dedup(a)) == Elements(a) == {} + Elements(a);
    DedupOfDedup(b, Elements(a));
  }

  lemma {:induction false} DedupOfDedupFrom(s: seq<string>, seen: set<string>, more: set<string>)
    ensures DedupFrom(DedupFrom(s, seen), seen + more) == DedupFrom(s, seen + more)
  {
    if s != [] {
      if s[0] in seen {
        DedupOfDedupFrom(s[1..], seen, more);
      } else {
        DedupOfDedupFrom(s[1..], seen + {s[0]}, more);
        var rest := DedupFrom(s[1..], seen + {s[0]});
        assert ([s[0]] + rest)[1..] == rest;
        assert seen + {s[0]} + more == seen + more + {s[0]};
        if s[0] in more { assert seen + more + {s[0]} == seen + more; }
      }
    }
  }

  lemma DedupOfDedup(s: seq<string>, more: set<string>)
    ensures DedupFrom(Dedup(s), more) == DedupFrom(s, more)
  {
    DedupOfDedupFrom(s, {}, more);
    assert {} + more == more;
  }

  // ----- extraction -----

  /** The keys of a text: matches in order, upper-cased, without repetitions. */
  function Keys(pk: string, t: string): seq<string> {
    Dedup(Scan(pk, t, 0))
  }

  /** `IssueKeys`: one pass over the matches with a set of those seen. */
  method Extract(pk: string, t: string) returns (result: seq<string>)
    ensures result == Keys(pk, t)
  {
    var matches := Scan(pk, t, 0);
    var seen: set<string> := {};
    result := [];
    for i := 0 to |matches|
      invariant result + DedupFrom(matches[i..], seen) == Dedup(matches)
    {
      var upper := matches[i];
      assert matches[i..][1..] == matches[i + 1..];
      if upper !in seen {
        seen := seen + {upper};
        result := result + [upper];
      }
    }
  }

  lemma HereMembers(pk: string, t: string, i: nat, k: string)
    requires i <= |t|
    ensures k in Here(pk, t, i) <==> exists j: nat :: Occurrence(pk, t, i, j) && KeyAt(t, i, j) == k
  {
    MatchIsOccurrenceAll(pk, t, i);
  }

  ghost predicate OccursFrom(pk: string, t: string, i: nat, k: string) {
    exists a: nat, j: nat :: i <= a && Occurrence(pk, t, a, j) && KeyAt(t, a, j) == k
  }

  lemma {:induction false} AllMembers(pk: string, t: string, i: nat, k: string)
    requires i <= |t|
    ensures k in All(pk, t, i) <==> OccursFrom(pk, t, i, k)
    decreases |t| - i
  {
    if i < |t| {
      AllMembers(pk, t, i + 1, k);
      HereMembers(pk, t, i, k);
      if OccursFrom(pk, t, i, k) {
        var a: nat, j: nat :| i <= a && Occurrence(pk, t, a, j) && KeyAt(t, a, j) == k;
        assert a == i || OccursFrom(pk, t, i + 1, k);
      }
    }
  }

  /** Soundness and completeness: a key is extracted exactly when some occurrence, wherever it lies,
      upper-cases to it; and no key is extracted twice. */
  lemma KeysExactly(pk: string, t: string, k: string)
    requires ProjectKey(pk)
    ensures k in Keys(pk, t) <==> exists i: nat, j: nat :: Occurrence(pk, t, i, j) && KeyAt(t, i, j) == k
    ensures Distinct(Keys(pk, t))
  {
    ScanIsAll(pk, t, 0);
    AllMembers(pk, t, 0, k);
    DedupMembers(Scan(pk, t, 0), {});
  }

  /** x is extracted before y because x occurs before y ever does. */
  ghost predicate OccursBefore(pk: string, t: string, from: nat, x: string, y: string) {
    exists i, j ::
      && from <= i && Occurrence(pk, t, i, j) && KeyAt(t, i, j) == x
      && forall i', j' :: from <= i' && Occurrence(pk, t, i', j') && KeyAt(t, i', j') == y ==> i < i'
  }

  ghost predicate InOrder(pk: string, t: string, i: nat, s: seq<string>) {
    s == [] || (BeforeAll(pk, t, i, s[0], s[1..]) && InOrder(pk, t, i, s[1..]))
  }

  ghost predicate BeforeAll(pk: string, t: string, i: nat, x: string, ys: seq<string>) {
    forall y :: y in ys ==> OccursBefore(pk, t, i, x, y)
  }

  lemma {:induction false} InOrderAt(pk: string, t: string, i: nat, s: seq<string>, p: nat, q: nat,
                                     x: string, y: string)
    requires InOrder(pk, t, i, s) && p < q < |s| && s[p] == x && s[q] == y
    ensures OccursBefore(pk, t, i, x, y)
  {
    var rest := s[1..];
    assert rest[q - 1] == y;
    if p == 0 {
      assert BeforeAll(pk, t, i, x, rest) && y in rest;
    } else {
      assert rest[p - 1] == x;
      InOrderAt(pk, t, i, rest, p - 1, q - 1, x, y);
    }
  }

  lemma {:induction false} DedupOrder(pk: string, t: string, i: nat, seen: set<string>)
    requires i <= |t|
    ensures InOrder(pk, t, i, DedupFrom(All(pk, t, i), seen))
    decreases |t| - i
  {
    if i < |t| {
      DedupOrder(pk, t, i + 1, SeenHere(pk, t, i, seen));
      DedupOrderStep(pk, t, i, seen);
    } else {
      assert DedupFrom(All(pk, t, i), seen) == [];
    }
  }

  function SeenHere(pk: string, t: string, i: nat, seen: set<string>): set<string>
    requires i <= |t|
  {
    if Here(pk, t, i) == [] then seen else SeenAfter(Here(pk, t, i)[0], seen)
  }

  lemma DedupOrderStep(pk: string, t: string, i: nat, seen: set<string>)
    requires i < |t| && InOrder(pk, t, i + 1, DedupFrom(All(pk, t, i + 1), SeenHere(pk, t, i, seen)))
    ensures InOrder(pk, t, i, DedupFrom(All(pk, t, i), seen))
  {
    var rest := All(pk, t, i + 1);
    AllUnfold(pk, t, i);
    if Here(pk, t, i) == [] {
      assert [] + rest == rest;
      OrderLift(pk, t, i, DedupFrom(rest, seen));
    } else {
      OrderStep(pk, t, i, Here(pk, t, i)[0], rest, seen);
    }
  }

  function SeenAfter(key: string, seen: set<string>): set<string> {
    if key in seen then seen else seen + {key}
  }

  lemma OrderStep(pk: string, t: string, i: nat, key: string, rest: seq<string>, seen: set<string>)
    requires i <= |t| && Here(pk, t, i) == [key]
    requires InOrder(pk, t, i + 1, DedupFrom(rest, SeenAfter(key, seen)))
    ensures InOrder(pk, t, i, DedupFrom([key] + rest, seen))
  {
    var tail := DedupFrom(rest, SeenAfter(key, seen));
    DedupSplit(key, rest, seen);
    DedupMembers(rest, SeenAfter(key, seen));
    OrderLift(pk, t, i, tail);
    if key !in seen { OrderCons(pk, t, i, key, tail); }
  }

  /** Starting one position earlier keeps the order, if what starts there is not in the list. */
  lemma {:induction false} OrderLift(pk: string, t: string, i: nat, s: seq<string>)
    requires i <= |t| && InOrder(pk, t, i + 1, s) && forall y :: y in s ==> Here(pk, t, i) != [y]
    ensures InOrder(pk, t, i, s)
  {
    if s != [] {
      OrderLift(pk, t, i, s[1..]);
      BeforeAllLift(pk, t, i, s[0], s[1..]);
    }
  }

  lemma BeforeAllLift(pk: string, t: string, i: nat, x: string, ys: seq<string>)
    requires i <= |t| && BeforeAll(pk, t, i + 1, x, ys) && forall y :: y in ys ==> Here(pk, t, i) != [y]
    ensures BeforeAll(pk, t, i, x, ys)
  {
    forall y | y in ys
      ensures OccursBefore(pk, t, i, x, y)
    {
      NotHere(pk, t, i, y);
      LaterStart(pk, t, i, x, y);
    }
  }

  lemma BeforeAllHere(pk: string, t: string, i: nat, key: string, ys: seq<string>)
    requires i <= |t| && Here(pk, t, i) == [key] && key !in ys
    ensures BeforeAll(pk, t, i, key, ys)
  {
    forall y | y in ys
      ensures OccursBefore(pk, t, i, key, y)
    {
      NotHere(pk, t, i, y);
      FirstStart(pk, t, i, key, y);
    }
  }

  lemma OrderCons(pk: string, t: string, i: nat, key: string, s: seq<string>)
    requires i <= |t| && InOrder(pk, t, i, s) && Here(pk, t, i) == [key] && key !in s
    ensures InOrder(pk, t, i, [key] + s)
  {
    BeforeAllHere(pk, t, i, key, s);
    assert ([key] + s)[1..] == s;
  }

  lemma DedupSplit(key: string, rest: seq<string>, seen: set<string>)
    ensures DedupFrom([key] + rest, seen) ==
            if key in seen then DedupFrom(rest, seen) else [key] + DedupFrom(rest, seen + {key})
  {
    assert ([key] + rest)[1..] == rest;
  }

  lemma NotHere(pk: string, t: string, i: nat, y: string)
    requires i <= |t| && Here(pk, t, i) != [y]
    ensures forall j: nat :: Occurrence(pk, t, i, j) ==> KeyAt(t, i, j) != y
  {
    MatchIsOccurrenceAll(pk, t, i);
  }

  lemma FirstStart(pk: string, t: string, i: nat, x: string, y: string)
    requires i <= |t| && Here(pk, t, i) == [x]
    requires forall j: nat :: Occurrence(pk, t, i, j) ==> KeyAt(t, i, j) != y
    ensures OccursBefore(pk, t, i, x, y)
  {
    var j := MatchAt(pk, t, i).value;
    MatchIsOccurrence(pk, t, i, j);
  }

  lemma LaterStart(pk: string, t: string, i: nat, x: string, y: string)
    requires OccursBefore(pk, t, i + 1, x, y)
    requires forall j :: Occurrence(pk, t, i, j) ==> KeyAt(t, i, j) != y
    ensures OccursBefore(pk, t, i, x, y)
  {
    var a, b :| i + 1 <= a && Occurrence(pk, t, a, b) && KeyAt(t, a, b) == x
      && forall i', j' :: i + 1 <= i' && Occurrence(pk, t, i', j') && KeyAt(t, i', j') == y ==> a < i';
    assert Occurrence(pk, t, a, b);
  }

  /** Keys come in order of first occurrence. */
  lemma KeysInOrder(pk: string, t: string, p: nat, q: nat)
    requires ProjectKey(pk) && p < q < |Keys(pk, t)|
    ensures OccursBefore(pk, t, 0, Keys(pk, t)[p], Keys(pk, t)[q])
  {
    ScanIsAll(pk, t, 0);
    DedupOrder(pk, t, 0, {});
    InOrderAt(pk, t, 0, Keys(pk, t), p, q, Keys(pk, t)[p], Keys(pk, t)[q]);
  }

  // ----- joining texts -----

  /** strings.Join(texts, " ") */
  function Join(texts: seq<string>): string {
    if texts == [] then ""
    else if |texts| == 1 then texts[0]
    else texts[0] + " " + Join(texts[1..])
  }

  /** t is a, a space, and b. */
  predicate Joined(t: string, a: string, b: string) {
    && |t| == |a| + 1 + |b|
    && t[|a|] == ' '
    && (forall k :: 0 <= k < |a| ==> t[k] == a[k])
    && (forall k :: 0 <= k < |b| ==> t[|a| + 1 + k] == b[k])
  }

  /** An occurrence cannot run across the joining space, and the space is a boundary like the ends of
      a text are. */
  lemma OccurrenceLeft(pk: string, t: string, a: string, b: string, i: nat, j: nat)
    requires ProjectKey(pk) && Joined(t, a, b) && i <= |a|
    ensures Occurrence(pk, t, i, j) <==> Occurrence(pk, a, i, j)
  {
    if Occurrence(pk, t, i, j) && |a| < j {
      OccurrenceChars(pk, t, i, j, |a|);
    }
    if j <= |a| && i + |pk| + 1 < j {
      assert Boundary(t, i) == Boundary(a, i) && Boundary(t, j) == Boundary(a, j);
      assert t[i..i + |pk|] == a[i..i + |pk|];
      assert t[i + |pk| + 1..j] == a[i + |pk| + 1..j];
    }
  }

  lemma SliceRight(t: string, a: string, b: string, x: nat, y: nat)
    requires Joined(t, a, b) && x <= y <= |b|
    ensures t[|a| + 1 + x..|a| + 1 + y] == b[x..y]
  {
    var u, v := t[|a| + 1 + x..|a| + 1 + y], b[x..y];
    forall k | 0 <= k < |v| ensures u[k] == v[k] { assert v[k] == b[x + k] == t[|a| + 1 + (x + k)]; }
  }

  lemma BoundaryRight(t: string, a: string, b: string, x: nat)
    requires Joined(t, a, b) && x <= |b|
    ensures Boundary(t, |a| + 1 + x) == Boundary(b, x)
  {
    if x < |b| { assert b[x] == t[|a| + 1 + x]; }
    if x > 0 { assert b[x - 1] == t[|a| + 1 + (x - 1)]; }
  }

  lemma OccurrenceRight(pk: string, t: string, a: string, b: string, i: nat, j: nat)
    requires Joined(t, a, b)
    ensures Occurrence(pk, t, |a| + 1 + i, |a| + 1 + j) <==> Occurrence(pk, b, i, j)
  {
    if i + |pk| + 1 < j <= |b| {
      BoundaryRight(t, a, b, i);
      BoundaryRight(t, a, b, j);
      SliceRight(t, a, b, i, i + |pk|);
      SliceRight(t, a, b, i + |pk| + 1, j);
      assert b[i + |pk|] == t[|a| + 1 + (i + |pk|)];
    }
  }

  lemma MatchRight(pk: string, t: string, a: string, b: string, i: nat, j: nat)
    requires Joined(t, a, b) && i <= |b|
    ensures MatchAt(pk, b, i) == Some(j) <==> MatchAt(pk, t, |a| + 1 + i) == Some(|a| + 1 + j)
  {
    MatchIsOccurrence(pk, b, i, j);
    OccurrenceRight(pk, t, a, b, i, j);
    MatchIsOccurrence(pk, t, |a| + 1 + i, |a| + 1 + j);
  }

  lemma MatchLeft(pk: string, t: string, a: string, b: string, i: nat, j: nat)
    requires ProjectKey(pk) && Joined(t, a, b) && i <= |a|
    ensures MatchAt(pk, a, i) == Some(j) <==> MatchAt(pk, t, i) == Some(j)
  {
    MatchIsOccurrence(pk, a, i, j);
    OccurrenceLeft(pk, t, a, b, i, j);
    MatchIsOccurrence(pk, t, i, j);
  }

  lemma MatchEnds(pk: string, t: string, i: nat)
    requires i <= |t|
    ensures MatchAt(pk, t, i).Some? ==> i < MatchAt(pk, t, i).value <= |t|
  {
  }

  lemma HereRight(pk: string, t: string, a: string, b: string, i: nat)
    requires Joined(t, a, b) && i <= |b|
    ensures Here(pk, t, |a| + 1 + i) == Here(pk, b, i)
  {
    if MatchAt(pk, b, i).Some? {
      MatchEnds(pk, b, i);
      HereRightAt(pk, t, a, b, i, MatchAt(pk, b, i).value);
    } else if MatchAt(pk, t, |a| + 1 + i).Some? {
      MatchEnds(pk, t, |a| + 1 + i);
      MatchRight(pk, t, a, b, i, MatchAt(pk, t, |a| + 1 + i).value - (|a| + 1));
    }
  }

  lemma HereRightAt(pk: string, t: string, a: string, b: string, i: nat, j: nat)
    requires Joined(t, a, b) && i <= j <= |b| && MatchAt(pk, b, i) == Some(j)
    ensures Here(pk, t, |a| + 1 + i) == Here(pk, b, i)
  {
    MatchRight(pk, t, a, b, i, j);
    SliceRight(t, a, b, i, j);
  }

  lemma HereLeft(pk: string, t: string, a: string, b: string, i: nat)
    requires ProjectKey(pk) && Joined(t, a, b) && i <= |a|
    ensures Here(pk, t, i) == Here(pk, a, i)
  {
    MatchEnds(pk, a, i);
    if MatchAt(pk, a, i).Some? {
      var j := MatchAt(pk, a, i).value;
      MatchLeft(pk, t, a, b, i, j);
      assert t[i..j] == a[i..j];
    } else if MatchAt(pk, t, i).Some? {
      MatchLeft(pk, t, a, b, i, MatchAt(pk, t, i).value);
    }
  }

  /** b's matches reappear in t, m further on. */
  ghost predicate MatchesShift(pk: string, t: string, b: string, m: nat) {
    |t| == m + |b| && forall k: nat :: k <= |b| ==> Here(pk, t, m + k) == Here(pk, b, k)
  }

  ghost predicate MatchesAgree(pk: string, t: string, a: string) {
    |a| <= |t| && forall k: nat :: k <= |a| ==> Here(pk, t, k) == Here(pk, a, k)
  }

  lemma {:induction false} AllShift(pk: string, t: string, b: string, m: nat, i: nat)
    requires MatchesShift(pk, t, b, m) && i <= |b|
    ensures All(pk, t, m + i) == All(pk, b, i)
    decreases |b| - i
  {
    if i < |b| {
      AllShift(pk, t, b, m, i + 1);
      assert Here(pk, t, m + i) == Here(pk, b, i);
    }
  }

  lemma {:induction false} AllPrefix(pk: string, t: string, a: string, i: nat)
    requires MatchesAgree(pk, t, a) && i <= |a|
    ensures All(pk, t, i) == All(pk, a, i) + All(pk, t, |a|)
    decreases |a| - i
  {
    if i < |a| {
      AllPrefix(pk, t, a, i + 1);
      assert Here(pk, t, i) == Here(pk, a, i);
      AllPrefixStep(pk, t, a, i, All(pk, t, |a|));
    } else {
      assert All(pk, a, i) == [];
    }
  }

  lemma AllPrefixStep(pk: string, t: string, a: string, i: nat, rest: seq<string>)
    requires i < |a| <= |t| && Here(pk, t, i) == Here(pk, a, i)
    requires All(pk, t, i + 1) == All(pk, a, i + 1) + rest
    ensures All(pk, t, i) == All(pk, a, i) + rest
  {
    AllUnfold(pk, t, i);
    AllUnfold(pk, a, i);
    Prepend(Here(pk, a, i), All(pk, a, i + 1), rest, All(pk, t, i + 1));
  }

  lemma AllUnfold(pk: string, t: string, i: nat)
    requires i < |t|
    ensures All(pk, t, i) == Here(pk, t, i) + All(pk, t, i + 1)
  {
  }

  lemma Prepend(x: seq<string>, y: seq<string>, z: seq<string>, yz: seq<string>)
    requires yz == y + z
    ensures x + yz == (x + y) + z
  {
  }

  lemma JoinedMatches(pk: string, t: string, a: string, b: string)
    requires ProjectKey(pk) && Joined(t, a, b)
    ensures MatchesAgree(pk, t, a) && MatchesShift(pk, t, b, |a| + 1)
  {
    forall k: nat | k <= |a| ensures Here(pk, t, k) == Here(pk, a, k) { HereLeft(pk, t, a, b, k); }
    forall k: nat | k <= |b| ensures Here(pk, t, |a| + 1 + k) == Here(pk, b, k) { HereRight(pk, t, a, b, k); }
  }

  lemma AllJoined(pk: string, t: string, a: string, b: string)
    requires ProjectKey(pk) && Joined(t, a, b)
    ensures All(pk, t, 0) == All(pk, a, 0) + All(pk, b, 0)
  {
    JoinedMatches(pk, t, a, b);
    AllPrefix(pk, t, a, 0);
    AllShift(pk, t, b, |a| + 1, 0);
    NothingAtEnd(pk, a);
    assert Here(pk, t, |a|) == [];
    assert All(pk, t, |a|) == All(pk, t, |a| + 1);
  }

  lemma NothingAtEnd(pk: string, t: string)
    ensures MatchAt(pk, t, |t|).None? && Here(pk, t, |t|) == []
  {
  }

  /** The keys of two texts joined by a space, before deduplication: nothing lost, nothing made up. */
  lemma ScanJoined(pk: string, a: string, b: string)
    requires ProjectKey(pk)
    ensures Scan(pk, a + " " + b, 0) == Scan(pk, a, 0) + Scan(pk, b, 0)
  {
    var t := a + " " + b;
    assert Joined(t, a, b);
    ScanIsAll(pk, t, 0);
    ScanIsAll(pk, a, 0);
    ScanIsAll(pk, b, 0);
    AllJoined(pk, t, a, b);
  }

  /** The keys of each text in turn, concatenated. */
  function KeysOfEach(pk: string, texts: seq<string>): seq<string> {
    if texts == [] then [] else Keys(pk, texts[0]) + KeysOfEach(pk, texts[1..])
  }

  /** Extraction from joined texts is the deduplicated concatenation of the extractions. */
  lemma {:induction false} KeysOfJoin(pk: string, texts: seq<string>)
    requires ProjectKey(pk)
    ensures Keys(pk, Join(texts)) == Dedup(KeysOfEach(pk, texts))
  {
    if texts == [] {
      assert Scan(pk, "", 0) == [];
    } else if |texts| == 1 {
      assert KeysOfEach(pk, texts) == Keys(pk, texts[0]) + [];
      assert Keys(pk, texts[0]) + [] == Keys(pk, texts[0]);
      DedupOfDedup(Scan(pk, texts[0], 0), {});
    } else {
      var a, rest := Scan(pk, texts[0], 0), Scan(pk, Join(texts[1..]), 0);
      ScanJoined(pk, texts[0], Join(texts[1..]));
      KeysOfJoin(pk, texts[1..]);
      DedupInPieces(a, rest);
      DedupInPieces(Dedup(a), KeysOfEach(pk, texts[1..]));
      DedupOfDedup(a, {});
    }
  }

  // ----- re-extraction -----

  lemma UpperTwice(s: string)
    ensures UpperAll(UpperAll(s)) == UpperAll(s)
  {
  }

  lemma KeyIsOccurrence(pk: string, t: string, i: nat, j: nat)
    requires ProjectKey(pk) && Occurrence(pk, t, i, j)
    ensures Occurrence(pk, KeyAt(t, i, j), 0, j - i)
  {
    var k, n := KeyAt(t, i, j), |pk|;
    assert forall x :: 0 <= x < j - i ==> k[x] == Upper(t[i + x]);
    OccurrenceChars(pk, t, i, j, i);
    OccurrenceChars(pk, t, i, j, j - 1);
    assert UpperAll(k[0..0 + n]) == UpperAll(t[i..i + n]);
    KeyDigits(pk, t, i, j);
  }

  lemma KeyDigits(pk: string, t: string, i: nat, j: nat)
    requires ProjectKey(pk) && Occurrence(pk, t, i, j)
    ensures AllDigits(KeyAt(t, i, j)[|pk| + 1..j - i])
  {
    var digits := KeyAt(t, i, j)[|pk| + 1..j - i];
    forall x | 0 <= x < |digits|
      ensures IsDigit(digits[x])
    {
      var k := |pk| + 1 + x;
      OccurrenceChars(pk, t, i, j, i + k);
      assert digits[x] == KeyAt(t, i, j)[k] == Upper(t[i..j][k]) == t[i + k];
    }
  }

  /** A key on its own is one occurrence, from end to end, and extracts to itself. */
  lemma KeyOfKey(pk: string, t: string, i: nat, j: nat)
    requires ProjectKey(pk) && Occurrence(pk, t, i, j)
    ensures Keys(pk, KeyAt(t, i, j)) == [KeyAt(t, i, j)]
  {
    var k := KeyAt(t, i, j);
    KeyIsOccurrence(pk, t, i, j);
    MatchIsOccurrence(pk, k, 0, |k|);
    assert k[0..|k|] == k;
    UpperTwice(t[i..j]);
    NothingAtEnd(pk, k);
    assert Scan(pk, k, 0) == [k] + Scan(pk, k, |k|) == [k];
    DedupOfDistinct([k], {});
  }

  lemma {:induction false} KeysOfKeys(pk: string, t: string, ks: seq<string>)
    requires ProjectKey(pk) && forall k :: k in ks ==> k in Keys(pk, t)
    ensures KeysOfEach(pk, ks) == ks
  {
    if ks != [] {
      assert ks[0] in ks;
      KeysExactly(pk, t, ks[0]);
      var i: nat, j: nat :| Occurrence(pk, t, i, j) && KeyAt(t, i, j) == ks[0];
      KeyOfKey(pk, t, i, j);
      KeysOfKeys(pk, t, ks[1..]);
    }
  }

  /** Extracting again from the result joined by spaces gives the same list. */
  lemma ReExtraction(pk: string, t: string)
    requires ProjectKey(pk)
    ensures Keys(pk, Join(Keys(pk, t))) == Keys(pk, t)
  {
    var ks := Keys(pk, t);
    KeysOfJoin(pk, ks);
    KeysOfKeys(pk, t, ks);
    DedupOfDedup(Scan(pk, t, 0), {});
  }

  // ----- the three sources -----

  /** `IssueKeysFromEvent`: branch, then title, then the joined commit messages. */
  function FromEvent(pk: string, branch: string, title: string, messages: seq<string>): seq<string> {
    if Keys(pk, branch) != [] then Keys(pk, branch)
    else if Keys(pk, title) != [] then Keys(pk, title)
    else if messages != [] then Keys(pk, Join(messages))
    else []
  }

  /** The list has no repetitions; it is empty exactly when no source mentions a key; and when it comes
      from the commits it is what extracting message by message and deduplicating gives. */
  lemma FromEventProperties(pk: string, branch: string, title: string, messages: seq<string>)
    requires ProjectKey(pk)
    ensures var ks := FromEvent(pk, branch, title, messages);
            && Distinct(ks)
            && (ks == [] <==> Keys(pk, branch) == [] && Keys(pk, title) == [] && KeysOfEach(pk, messages) == [])
            && (Keys(pk, branch) == [] && Keys(pk, title) == [] ==> ks == Dedup(KeysOfEach(pk, messages)))
  {
    KeysOfJoin(pk, messages);
    DedupMembers(Scan(pk, branch, 0), {});
    DedupMembers(Scan(pk, title, 0), {});
    DedupMembers(KeysOfEach(pk, messages), {});
    var each := KeysOfEach(pk, messages);
    if each != [] { assert each[0] in each; }
  }
}
