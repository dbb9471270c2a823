/** What a mention of an issue key is, in character codes, and that extraction finds exactly those: the
    case of the text and of the project key makes no difference. */
module IssueMentions {
  import opened Domain
  import opened IssueKeys

  predicate Small(c: char) { 97 <= c as int <= 122 }

  predicate Capital(c: char) { 65 <= c as int <= 90 }

  predicate Numeral(c: char) { 48 <= c as int <= 57 }

  /** A letter, a digit or an underscore. */
  predicate InWord(c: char) { Small(c) || Capital(c) || Numeral(c) || c as int == 95 }

  /** u is the capital of c, or c itself where there is none. */
  predicate CapitalOf(c: char, u: char) {
    if Small(c) then u as int == c as int - 32 else u == c
  }

  /** The project key, a hyphen and digits stand at t[i..j] in any case, not inside a longer word, and k
      is that in capitals. */
  predicate Mention(pk: string, t: string, i: nat, j: nat, k: string) {
    && i + |pk| + 1 < j <= |t| && |k| == j - i
    && (i == 0 || !InWord(t[i - 1])) && (j == |t| || !InWord(t[j]))
    && (forall x :: 0 <= x < |pk| ==> CapitalOf(pk[x], k[x]) && CapitalOf(t[i + x], k[x]))
    && k[|pk|] == t[i + |pk|] == '-'
    && (forall x :: |pk| < x < |k| ==> k[x] == t[i + x] && Numeral(k[x]))
  }

  // ----- the scan's vocabulary says the same -----

  lemma UpperIsCapital(c: char, u: char)
    ensures CapitalOf(c, u) <==> Upper(c) == u
  {
  }

  lemma MentionPrefix(pk: string, t: string, i: nat, k: string)
    requires i + |pk| <= |t| && |pk| <= |k|
    ensures (forall x :: 0 <= x < |pk| ==> CapitalOf(pk[x], k[x]) && CapitalOf(t[i + x], k[x])) <==>
            HasPrefix(pk, t, i) && k[..|pk|] == UpperAll(t[i..i + |pk|])
  {
    var u, v := UpperAll(t[i..i + |pk|]), UpperAll(pk);
    assert forall x :: 0 <= x < |pk| ==> u[x] == Upper(t[i + x]) && v[x] == Upper(pk[x]);
    if HasPrefix(pk, t, i) && k[..|pk|] == u {
      assert forall x :: 0 <= x < |pk| ==> k[..|pk|][x] == k[x];
    }
    if forall x :: 0 <= x < |pk| ==> CapitalOf(pk[x], k[x]) && CapitalOf(t[i + x], k[x]) {
      assert forall x :: 0 <= x < |pk| ==> u[x] == k[x] && v[x] == k[x];
      assert k[..|pk|] == u;
    }
  }

  lemma MentionDigits(pk: string, t: string, i: nat, j: nat, k: string)
    requires i + |pk| + 1 < j <= |t| && |k| == j - i
    ensures (forall x :: |pk| < x < |k| ==> k[x] == t[i + x] && Numeral(k[x])) <==>
            AllDigits(t[i + |pk| + 1..j]) && k[|pk| + 1..] == t[i + |pk| + 1..j]
  {
    var n := |pk| + 1;
    var s := t[i + n..j];
    assert forall x :: n <= x < |k| ==> s[x - n] == t[i + x] && k[n..][x - n] == k[x];
    assert forall y :: 0 <= y < |s| ==> s[y] == t[i + (n + y)] && k[n..][y] == k[n + y];
  }

  lemma SameInPieces(k: string, u: string, n: nat)
    requires |k| == |u| && n < |k|
    ensures u == k <==> k[..n] == u[..n] && k[n] == u[n] && k[n + 1..] == u[n + 1..]
  {
    assert k == k[..n] + [k[n]] + k[n + 1..] && u == u[..n] + [u[n]] + u[n + 1..];
  }

  lemma UpperFront(t: string, i: nat, j: nat, n: nat)
    requires i + n <= j <= |t|
    ensures UpperAll(t[i..j])[..n] == UpperAll(t[i..i + n])
  {
    var u, v := UpperAll(t[i..j]), UpperAll(t[i..i + n]);
    forall x | 0 <= x < n ensures u[..n][x] == v[x] { assert u[x] == Upper(t[i + x]) == v[x]; }
  }

  lemma UpperDigits(t: string, i: nat, j: nat, n: nat)
    requires i + n <= j <= |t| && AllDigits(t[i + n..j])
    ensures UpperAll(t[i..j])[n..] == t[i + n..j]
  {
    var u, v := UpperAll(t[i..j]), t[i + n..j];
    forall x | 0 <= x < |v|
      ensures u[n..][x] == v[x]
    {
      assert u[n + x] == Upper(t[i + (n + x)]) && v[x] == t[i + n + x];
    }
  }

  lemma KeyAtParts(pk: string, t: string, i: nat, j: nat, k: string)
    requires i + |pk| + 1 < j <= |t| && |k| == j - i && t[i + |pk|] == '-' && AllDigits(t[i + |pk| + 1..j])
    ensures KeyAt(t, i, j) == k <==>
            k[..|pk|] == UpperAll(t[i..i + |pk|]) && k[|pk|] == '-' && k[|pk| + 1..] == t[i + |pk| + 1..j]
  {
    UpperFront(t, i, j, |pk|);
    UpperDigits(t, i, j, |pk| + 1);
    assert UpperAll(t[i..j])[|pk|] == Upper(t[i + |pk|]) == '-';
    SameInPieces(k, KeyAt(t, i, j), |pk|);
  }

  lemma BoundaryBeforeWord(t: string, i: nat)
    requires i < |t| && IsWord(t[i])
    ensures Boundary(t, i) <==> i == 0 || !InWord(t[i - 1])
  {
  }

  lemma BoundaryAfterWord(t: string, j: nat)
    requires 0 < j <= |t| && IsWord(t[j - 1])
    ensures Boundary(t, j) <==> j == |t| || !InWord(t[j])
  {
  }

  /** The character at the start and the one before the end are word characters either way. */
  lemma EndsInWord(pk: string, t: string, i: nat, j: nat)
    requires ProjectKey(pk) && i + |pk| + 1 < j <= |t|
    requires HasPrefix(pk, t, i) && AllDigits(t[i + |pk| + 1..j])
    ensures IsWord(t[i]) && IsWord(t[j - 1])
  {
    assert UpperAll(t[i..i + |pk|])[0] == Upper(t[i]) && UpperAll(pk)[0] == Upper(pk[0]);
    assert t[i + |pk| + 1..j][j - i - |pk| - 2] == t[j - 1];
  }

  lemma MentionIsOccurrence(pk: string, t: string, i: nat, j: nat, k: string)
    requires ProjectKey(pk)
    ensures Mention(pk, t, i, j, k) <==> Occurrence(pk, t, i, j) && KeyAt(t, i, j) == k
  {
    if i + |pk| + 1 < j <= |t| && |k| == j - i {
      MentionPrefix(pk, t, i, k);
      MentionDigits(pk, t, i, j, k);
      if t[i + |pk|] == '-' && HasPrefix(pk, t, i) && AllDigits(t[i + |pk| + 1..j]) {
        KeyAtParts(pk, t, i, j, k);
        EndsInWord(pk, t, i, j);
        BoundaryBeforeWord(t, i);
        BoundaryAfterWord(t, j);
      }
    }
  }

  // ----- the results, in character codes -----

  /** A key is extracted exactly when it is mentioned, wherever and in whatever case; never twice; and
      always in capitals. */
  lemma KeysAreMentions(pk: string, t: string, k: string)
    requires ProjectKey(pk)
    ensures k in Keys(pk, t) <==> exists i: nat, j: nat :: Mention(pk, t, i, j, k)
    ensures Distinct(Keys(pk, t))
    ensures k in Keys(pk, t) ==> forall x :: 0 <= x < |k| ==> !Small(k[x])
  {
    KeysExactly(pk, t, k);
    forall i: nat, j: nat ensures Mention(pk, t, i, j, k) <==> Occurrence(pk, t, i, j) && KeyAt(t, i, j) == k {
      MentionIsOccurrence(pk, t, i, j, k);
    }
    if k in Keys(pk, t) {
      var i: nat, j: nat :| Mention(pk, t, i, j, k);
      MentionInCapitals(pk, t, i, j, k);
    }
  }

  lemma MentionInCapitals(pk: string, t: string, i: nat, j: nat, k: string)
    requires Mention(pk, t, i, j, k)
    ensures forall x :: 0 <= x < |k| ==> !Small(k[x])
  {
    forall x | 0 <= x < |k| ensures !Small(k[x]) { assert x < |pk| || x == |pk| || x > |pk|; }
  }

  /** x is mentioned before y ever is. */
  ghost predicate MentionedBefore(pk: string, t: string, x: string, y: string) {
    exists i: nat, j: nat :: Mention(pk, t, i, j, x) && NotUpTo(pk, t, i, y)
  }

  ghost predicate NotUpTo(pk: string, t: string, i: nat, y: string) {
    forall a: nat, b: nat :: Mention(pk, t, a, b, y) ==> i < a
  }

  /** Keys come in the order in which they are first mentioned. */
  lemma KeysInOrderOfMention(pk: string, t: string, p: nat, q: nat)
    requires ProjectKey(pk) && p < q < |Keys(pk, t)|
    ensures MentionedBefore(pk, t, Keys(pk, t)[p], Keys(pk, t)[q])
  {
    var x, y := Keys(pk, t)[p], Keys(pk, t)[q];
    KeysInOrder(pk, t, p, q);
    var i: nat, j: nat :| Occurrence(pk, t, i, j) && KeyAt(t, i, j) == x
      && forall a, b :: 0 <= a && Occurrence(pk, t, a, b) && KeyAt(t, a, b) == y ==> i < a;
    MentionIsOccurrence(pk, t, i, j, x);
    forall a: nat, b: nat | Mention(pk, t, a, b, y) ensures i < a { MentionIsOccurrence(pk, t, a, b, y); }
  }

  // ----- case makes no difference -----

  /** The same character, or the two cases of one letter. */
  predicate SameLetter(c: char, d: char) {
    || c == d
    || (Small(c) && d as int == c as int - 32)
    || (Small(d) && c as int == d as int - 32)
  }

  predicate SameButCase(a: string, b: string) {
    |a| == |b| && forall i :: 0 <= i < |a| ==> SameLetter(a[i], b[i])
  }

  lemma SameUpper(a: string, b: string, i: nat, j: nat)
    requires SameButCase(a, b) && i <= j <= |a|
    ensures UpperAll(a[i..j]) == UpperAll(b[i..j])
  {
    var u, v := UpperAll(a[i..j]), UpperAll(b[i..j]);
    forall x | 0 <= x < |u| ensures u[x] == v[x] { assert u[x] == Upper(a[i + x]) && v[x] == Upper(b[i + x]); }
  }

  lemma SameBoundary(t: string, u: string, i: nat)
    requires SameButCase(t, u) && i <= |t|
    ensures Boundary(t, i) == Boundary(u, i)
  {
  }

  lemma SameDigits(t: string, u: string, i: nat, j: nat)
    requires SameButCase(t, u) && i <= j <= |t|
    ensures AllDigits(t[i..j]) ==> AllDigits(u[i..j])
  {
    if AllDigits(t[i..j]) {
      forall x | 0 <= x < j - i
        ensures IsDigit(u[i..j][x])
      {
        assert IsDigit(t[i..j][x]) && SameLetter(t[i + x], u[i + x]);
      }
    }
  }

  lemma SameOccurrence(pk: string, qk: string, t: string, u: string, i: nat, j: nat)
    requires SameButCase(pk, qk) && SameButCase(t, u) && Occurrence(pk, t, i, j)
    ensures Occurrence(qk, u, i, j)
  {
    SameBoundary(t, u, i);
    SameBoundary(t, u, j);
    SameDigits(t, u, i + |pk| + 1, j);
    SameUpper(t, u, i, i + |pk|);
    SameUpper(pk, qk, 0, |pk|);
    assert pk[0..|pk|] == pk && qk[0..|qk|] == qk;
    assert SameLetter(t[i + |pk|], u[i + |pk|]);
  }

  lemma SameCaseBack(a: string, b: string)
    requires SameButCase(a, b)
    ensures SameButCase(b, a)
  {
  }

  lemma SameMatch(pk: string, qk: string, t: string, u: string, i: nat)
    requires SameButCase(pk, qk) && SameButCase(t, u) && i <= |t|
    ensures MatchAt(pk, t, i) == MatchAt(qk, u, i)
  {
    SameCaseBack(pk, qk);
    SameCaseBack(t, u);
    if MatchAt(pk, t, i).Some? {
      var j := MatchAt(pk, t, i).value;
      MatchIsOccurrence(pk, t, i, j);
      SameOccurrence(pk, qk, t, u, i, j);
      MatchIsOccurrence(qk, u, i, j);
    } else if MatchAt(qk, u, i).Some? {
      var j := MatchAt(qk, u, i).value;
      MatchIsOccurrence(qk, u, i, j);
      SameOccurrence(qk, pk, u, t, i, j);
      MatchIsOccurrence(pk, t, i, j);
    }
  }

  lemma {:induction false} SameScan(pk: string, qk: string, t: string, u: string, i: nat)
    requires SameButCase(pk, qk) && SameButCase(t, u) && i <= |t|
    ensures Scan(pk, t, i) == Scan(qk, u, i)
    decreases |t| - i
  {
    SameMatch(pk, qk, t, u, i);
    match MatchAt(pk, t, i)
    case Some(j) =>
      SameUpper(t, u, i, j);
      SameScan(pk, qk, t, u, j);
    case None =>
      if i < |t| { SameScan(pk, qk, t, u, i + 1); }
  }

  /** Texts that differ only in the case of letters, and project keys that do, give the same list. */
  lemma CaseBlind(pk: string, qk: string, t: string, u: string)
    requires SameButCase(pk, qk) && SameButCase(t, u)
    ensures Keys(pk, t) == Keys(qk, u)
  {
    SameScan(pk, qk, t, u, 0);
  }
}
