/** C-string helpers shared by the signalling model: strcmp, case-insensitive
    equality, bounded copy, and the glare tie-break built on them. */
module Text {

  function LowerChar(c: char): char {
    if 'A' <= c <= 'Z' then (c as int + 32) as char else c
  }

  function Lower(s: string): (r: string)
    ensures |r| == |s|
  {
    seq(|s|, i requires 0 <= i < |s| => LowerChar(s[i]))
  }

  /** The 26 capital letters are taken for their small ones, and nothing else is changed. */
  lemma LowerCharIs(c: char, i: nat)
    requires i < 26
    ensures LowerChar("ABCDEFGHIJKLMNOPQRSTUVWXYZ"[i]) == "abcdefghijklmnopqrstuvwxyz"[i]
    ensures c !in "ABCDEFGHIJKLMNOPQRSTUVWXYZ" ==> LowerChar(c) == c
  {
    var upper, lower := "ABCDEFGHIJKLMNOPQRSTUVWXYZ", "abcdefghijklmnopqrstuvwxyz";
    assert upper[i] as int == 65 + i && lower[i] as int == 97 + i;
    if 'A' <= c <= 'Z' {
      assert upper[c as int - 65] == c;
    }
  }

  /** str_casecmp(a, b) == 0 */
  predicate CaseEq(a: string, b: string) {
    Lower(a) == Lower(b)
  }

  /** str_ncpy into a buffer of `size` bytes: at most size - 1 characters survive. */
  function StrNcpy(src: string, size: nat): string
    requires size > 0
  {
    if |src| < size then src else src[..size - 1]
  }

  /** The copy is the longest beginning of its source that leaves room for the terminator. */
  lemma StrNcpyIs(src: string, size: nat)
    requires size > 0
    ensures StrNcpy(src, size) <= src && |StrNcpy(src, size)| < size
    ensures |StrNcpy(src, size)| == |src| || |StrNcpy(src, size)| == size - 1
  {
  }

  /** A stored copy still names its source exactly when it was not truncated. */
  lemma StrNcpyKeeps(src: string, size: nat)
    requires size > 0
    ensures CaseEq(StrNcpy(src, size), src) <==> |src| < size
  {
    assert |Lower(StrNcpy(src, size))| == |StrNcpy(src, size)|;
  }

  /** The sign of strcmp(a, b). */
  function StrCmp(a: string, b: string): int {
    if a == [] then (if b == [] then 0 else -1)
    else if b == [] then 1
    else if a[0] < b[0] then -1
    else if a[0] > b[0] then 1
    else StrCmp(a[1..], b[1..])
  }

  /** The first difference decides, and a proper prefix comes before what it is a prefix of. */
  lemma {:induction false} StrCmpFirst(a: string, b: string, i: nat)
    requires i <= |a| && i <= |b| && a[..i] == b[..i]
    ensures i < |a| && i < |b| && a[i] < b[i] ==> StrCmp(a, b) < 0
    ensures i < |a| && i < |b| && a[i] > b[i] ==> StrCmp(a, b) > 0
    ensures i == |a| < |b| ==> StrCmp(a, b) < 0
    ensures i == |b| < |a| ==> StrCmp(a, b) > 0
    decreases i
  {
    if i == 0 {
    } else {
      assert a[0] == a[..i][0] == b[0];
      assert a[1..][..i - 1] == a[..i][1..] == b[1..][..i - 1];
      StrCmpFirst(a[1..], b[1..], i - 1);
    }
  }

  lemma {:induction false} StrCmpEqual(a: string, b: string)
    ensures StrCmp(a, b) == 0 <==> a == b
  {
    if a == [] || b == [] {
    } else {
      StrCmpEqual(a[1..], b[1..]);
      assert a == [a[0]] + a[1..] && b == [b[0]] + b[1..];
    }
  }

  lemma {:induction false} StrCmpOpposite(a: string, b: string)
    ensures StrCmp(a, b) == -StrCmp(b, a)
  {
    if a == [] || b == [] {
    } else {
      StrCmpOpposite(a[1..], b[1..]);
    }
  }

  lemma {:induction false} StrCmpTransitive(a: string, b: string, c: string)
    requires StrCmp(a, b) > 0 && StrCmp(b, c) > 0
    ensures StrCmp(a, c) > 0
  {
    if a[0] != b[0] || c == [] || b[0] != c[0] {
    } else {
      StrCmpTransitive(a[1..], b[1..], c[1..]);
    }
  }

  /** econn_iswinner: the larger (userid, clientid) pair wins a glare. */
  predicate IsWinner(useridSelf: string, clientid: string, useridRemote: string, clientidRemote: string) {
    var r := StrCmp(useridSelf, useridRemote);
    if r == 0 then StrCmp(clientid, clientidRemote) > 0 else r > 0
  }

  /** The larger user id wins, whatever the client ids; among the own user's devices the larger
      client id does; and nobody wins against itself. */
  lemma {:induction false} WinnerIs(u: string, c: string, u': string, c': string)
    ensures StrCmp(u, u') > 0 ==> IsWinner(u, c, u', c')
    ensures StrCmp(u, u') < 0 ==> !IsWinner(u, c, u', c')
    ensures u == u' ==> (IsWinner(u, c, u', c') <==> StrCmp(c, c') > 0)
    ensures !IsWinner(u, c, u, c)
  {
    StrCmpEqual(u, u');
    StrCmpEqual(u, u);
    StrCmpEqual(c, c);
  }

  /** The tie-break is a strict total order on (userid, clientid): two distinct
      identities never agree on both winning, nor on both losing. */
  lemma WinnerTotal(u1: string, c1: string, u2: string, c2: string)
    ensures IsWinner(u1, c1, u2, c2) ==> !IsWinner(u2, c2, u1, c1)
    ensures !IsWinner(u1, c1, u2, c2) && !IsWinner(u2, c2, u1, c1) <==> u1 == u2 && c1 == c2
  {
    StrCmpEqual(u1, u2);
    StrCmpEqual(c1, c2);
    StrCmpOpposite(u1, u2);
    StrCmpOpposite(c1, c2);
  }

  lemma WinnerTransitive(u1: string, c1: string, u2: string, c2: string, u3: string, c3: string)
    requires IsWinner(u1, c1, u2, c2) && IsWinner(u2, c2, u3, c3)
    ensures IsWinner(u1, c1, u3, c3)
  {
    StrCmpEqual(u1, u2);
    StrCmpEqual(u2, u3);
    if u1 == u2 {
      if u2 == u3 {
        StrCmpTransitive(c1, c2, c3);
      }
    } else if u2 != u3 {
      StrCmpTransitive(u1, u2, u3);
    }
  }
}
