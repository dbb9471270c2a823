/** The text keys deliveries are deduplicated by, and the decoder that shows what each determines. */
module IdempotencyKey {
  import opened Domain

  datatype Source =
    | PushOf(project: int, branch: string, before: string)
    | MergeRequestOf(project: int, iid: int, action: string)
    | EmojiOf(project: int, name: string, id: int)

  // ----- decimal integers, as %d prints them -----

  function Digit(d: nat): (c: char)
    requires d < 10
    ensures '0' <= c <= '9' && c as int == '0' as int + d
  {
    ('0' as int + d) as char
  }

  function PrintNat(n: nat): (s: string)
    ensures |s| > 0 && forall i :: 0 <= i < |s| ==> '0' <= s[i] <= '9'
  {
    if n < 10 then [Digit(n)] else PrintNat(n / 10) + [Digit(n % 10)]
  }

  function PrintInt(n: int): string {
    if n < 0 then "-" + PrintNat(-n) else PrintNat(n)
  }

  function ReadNat(s: string): (n: int) {
    if s == [] then 0 else 10 * ReadNat(s[..|s| - 1]) + (s[|s| - 1] as int - '0' as int)
  }

  function ReadInt(s: string): int {
    if s != [] && s[0] == '-' then -ReadNat(s[1..]) else ReadNat(s)
  }

  lemma {:induction false} ReadPrintNat(n: nat)
    ensures ReadNat(PrintNat(n)) == n
  {
    var s := PrintNat(n);
    if n >= 10 {
      ReadPrintNat(n / 10);
      assert s[..|s| - 1] == PrintNat(n / 10);
    } else {
      assert s[..|s| - 1] == [] && ReadNat([]) == 0;
    }
  }

  lemma ReadPrintInt(n: int)
    ensures ReadInt(PrintInt(n)) == n && NoColon(PrintInt(n))
  {
    ReadPrintNat(if n < 0 then -n else n);
    if n < 0 { assert PrintInt(n)[1..] == PrintNat(-n); }
  }

  // ----- fields between colons -----

  predicate NoColon(s: string) {
    forall i :: 0 <= i < |s| ==> s[i] != ':'
  }

  function FirstColon(s: string): (i: nat)
    ensures i <= |s| && NoColon(s[..i]) && (i < |s| ==> s[i] == ':')
  {
    if s == [] || s[0] == ':' then 0
    else
      var i := FirstColon(s[1..]);
      assert s[..i + 1] == [s[0]] + s[1..][..i];
      i + 1
  }

  function LastColon(s: string): (i: nat)
    ensures i <= |s| && (i < |s| ==> s[i] == ':' && NoColon(s[i + 1..])) && (i == |s| ==> NoColon(s))
  {
    if s == [] then 0
    else if s[|s| - 1] == ':' then |s| - 1
    else
      var front := s[..|s| - 1];
      var i := LastColon(front);
      if i == |front| then |s|
      else
        assert s[i + 1..] == front[i + 1..] + [s[|s| - 1]];
        i
  }

  lemma {:induction false} FirstColonAt(a: string, b: string)
    requires NoColon(a)
    ensures FirstColon(a + ":" + b) == |a|
  {
    var s := a + ":" + b;
    if a == [] {
      assert s[0] == ':';
    } else {
      assert s[0] == a[0] && s[1..] == a[1..] + ":" + b;
      FirstColonAt(a[1..], b);
    }
  }

  lemma {:induction false} LastColonAt(a: string, b: string)
    requires NoColon(b)
    ensures LastColon(a + ":" + b) == |a|
  {
    var s := a + ":" + b;
    if b == [] {
      assert s[|s| - 1] == ':';
    } else {
      assert s[|s| - 1] == b[|b| - 1] && s[..|s| - 1] == a + ":" + b[..|b| - 1];
      LastColonAt(a, b[..|b| - 1]);
    }
  }

  // ----- printer and parser -----

  function Print(k: Source): string {
    match k
    case PushOf(project, branch, before) => "push:" + (PrintInt(project) + ":" + (branch + ":" + before))
    case MergeRequestOf(project, iid, action) => "mr:" + (PrintInt(project) + ":" + (PrintInt(iid) + ":" + action))
    case EmojiOf(project, name, id) => "emoji:" + (PrintInt(project) + ":" + (name + ":" + PrintInt(id)))
  }

  predicate StartsWith(s: string, prefix: string) {
    prefix <= s
  }

  /** Everything before and after the first colon. */
  function HeadTail(s: string): Option<(string, string)> {
    var i := FirstColon(s);
    if i < |s| then Some((s[..i], s[i + 1..])) else None
  }

  function InitLast(s: string): Option<(string, string)> {
    var i := LastColon(s);
    if i < |s| then Some((s[..i], s[i + 1..])) else None
  }

  function Parse(s: string): Option<Source> {
    if StartsWith(s, "push:") then ParsePush(s[5..])
    else if StartsWith(s, "mr:") then ParseMergeRequest(s[3..])
    else if StartsWith(s, "emoji:") then ParseEmoji(s[6..])
    else None
  }

  function ParsePush(s: string): Option<Source> {
    match HeadTail(s)
    case None => None
    case Some((project, tail)) =>
      match InitLast(tail)
      case None => None
      case Some((branch, before)) => Some(PushOf(ReadInt(project), branch, before))
  }

  function ParseMergeRequest(s: string): Option<Source> {
    match HeadTail(s)
    case None => None
    case Some((project, tail)) =>
      match HeadTail(tail)
      case None => None
      case Some((iid, action)) => Some(MergeRequestOf(ReadInt(project), ReadInt(iid), action))
  }

  function ParseEmoji(s: string): Option<Source> {
    match HeadTail(s)
    case None => None
    case Some((project, tail)) =>
      match InitLast(tail)
      case None => None
      case Some((name, id)) => Some(EmojiOf(ReadInt(project), name, ReadInt(id)))
  }

  /** The prefix alone says which kind of key it is. */
  lemma ParseByKind(rest: string)
    ensures Parse("push:" + rest) == ParsePush(rest)
    ensures Parse("mr:" + rest) == ParseMergeRequest(rest)
    ensures Parse("emoji:" + rest) == ParseEmoji(rest)
  {
    var a, b, c := "push:" + rest, "mr:" + rest, "emoji:" + rest;
    assert a[..5] == "push:" && a[5..] == rest;
    assert b[0] == 'm' && b[..3] == "mr:" && b[3..] == rest;
    assert c[0] == 'e' && c[..6] == "emoji:" && c[6..] == rest;
  }

  lemma HeadTailOf(a: string, b: string)
    requires NoColon(a)
    ensures HeadTail(a + ":" + b) == Some((a, b))
  {
    FirstColonAt(a, b);
    var s := a + ":" + b;
    assert s[..|a|] == a && s[|a| + 1..] == b;
  }

  lemma InitLastOf(a: string, b: string)
    requires NoColon(b)
    ensures InitLast(a + ":" + b) == Some((a, b))
  {
    LastColonAt(a, b);
    var s := a + ":" + b;
    assert s[..|a|] == a && s[|a| + 1..] == b;
  }

  /** A key decodes to exactly what it was made from, except that a push key needs its `before` to be
      free of colons; branch names, actions and emoji names may contain any. */
  lemma DecodesExactly(k: Source)
    ensures Parse(Print(k)) == Some(k) <==> (k.PushOf? ==> NoColon(k.before))
  {
    match k
    case MergeRequestOf(project, iid, action) =>
      ReadPrintInt(project);
      ReadPrintInt(iid);
      HeadTailOf(PrintInt(project), PrintInt(iid) + ":" + action);
      HeadTailOf(PrintInt(iid), action);
      ParseByKind(PrintInt(project) + ":" + (PrintInt(iid) + ":" + action));
    case EmojiOf(project, name, id) =>
      ReadPrintInt(project);
      ReadPrintInt(id);
      HeadTailOf(PrintInt(project), name + ":" + PrintInt(id));
      InitLastOf(name, PrintInt(id));
      ParseByKind(PrintInt(project) + ":" + (name + ":" + PrintInt(id)));
    case PushOf(project, branch, before) =>
      ReadPrintInt(project);
      HeadTailOf(PrintInt(project), branch + ":" + before);
      ParseByKind(PrintInt(project) + ":" + (branch + ":" + before));
      if NoColon(before) { InitLastOf(branch, before); } else { BeforeHasNoColon(branch + ":" + before); }
  }

  lemma BeforeHasNoColon(tail: string)
    ensures InitLast(tail).Some? ==> NoColon(InitLast(tail).value.1)
  {
  }

  /** Keys never collide, across kinds or within one, for deliveries whose `before` has no colon. */
  lemma KeysInjective(a: Source, b: Source)
    requires a.PushOf? ==> NoColon(a.before)
    requires b.PushOf? ==> NoColon(b.before)
    ensures Print(a) == Print(b) <==> a == b
  {
    DecodesExactly(a);
    DecodesExactly(b);
  }

  /** With a colon in `before` the key does collide: another branch and `before` print the same. */
  lemma ColonCollides(k: Source) returns (other: Source)
    requires k.PushOf? && !NoColon(k.before)
    ensures other.PushOf? && other != k && Print(other) == Print(k) && other.project == k.project
  {
    var i :| 0 <= i < |k.before| && k.before[i] == ':';
    other := PushOf(k.project, k.branch + ":" + k.before[..i], k.before[i + 1..]);
    assert k.before == k.before[..i] + ":" + k.before[i + 1..];
    assert k.branch + ":" + k.before == (k.branch + ":" + k.before[..i]) + ":" + k.before[i + 1..];
  }
}
