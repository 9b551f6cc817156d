/** Common prefixes of two logs, and what the conflict scan does to them. */
module LogFacts {
  import opened Types
  import opened LogModel

  /** Length of the longest common prefix. */
  function Lcp(a: seq<LogEntry>, b: seq<LogEntry>): (n: nat)
    ensures n <= |a| && n <= |b| && a[..n] == b[..n]
    ensures n < |a| && n < |b| ==> a[n] != b[n]
  {
    if a == [] || b == [] || a[0] != b[0] then 0 else 1 + Lcp(a[1..], b[1..])
  }

  /** Both logs reach n and agree below it. */
  ghost predicate Shares(a: seq<LogEntry>, b: seq<LogEntry>, n: int) {
    0 <= n <= |a| && n <= |b| && a[..n] == b[..n]
  }

  lemma SharesIsLcp(a: seq<LogEntry>, b: seq<LogEntry>, n: nat)
    ensures Shares(a, b, n) <==> n <= Lcp(a, b)
  {
    var c := Lcp(a, b);
    if n <= c {
      assert a[..n] == a[..c][..n] && b[..n] == b[..c][..n];
    } else {
      assert c < |a| && c < |b| && n <= |a| && n <= |b| ==> a[..n][c] != b[..n][c];
    }
  }

  lemma SharesLess(a: seq<LogEntry>, b: seq<LogEntry>, n: nat, m: nat)
    requires Shares(a, b, n) && m <= n
    ensures Shares(a, b, m)
  {
    assert a[..m] == a[..n][..m] && b[..m] == b[..n][..m];
  }

  lemma PrefixShares(a: seq<LogEntry>, b: seq<LogEntry>)
    requires a <= b
    ensures forall n :: 0 <= n <= |a| ==> Shares(a, b, n)
  {
    forall n | 0 <= n <= |a| ensures Shares(a, b, n) {
      assert b[..|a|] == a;
      assert b[..n] == b[..|a|][..n];
    }
  }

  /** Log Matching between two logs: an entry of the same index and term means agreement up to and
      including it. */
  ghost predicate Match(a: seq<LogEntry>, b: seq<LogEntry>) {
    forall k :: 0 <= k < |a| && k < |b| && a[k].term == b[k].term ==> a[..k + 1] == b[..k + 1]
  }

  /** Under Log Matching, the terms alone decide how far two logs agree. */
  lemma MatchDecidesByTerm(a: seq<LogEntry>, b: seq<LogEntry>, k: nat)
    requires Match(a, b) && k < |a| && k < |b|
    ensures a[k].term == b[k].term <==> Shares(a, b, k + 1)
  {
    if Shares(a, b, k + 1) {
      assert a[k] == a[..k + 1][k] && b[k] == b[..k + 1][k];
    }
  }

  /** Merging the tail of a log that agrees so far either changes nothing, because that whole log is
      already there, or yields exactly that log. */
  lemma {:induction false} MergeTail(f: seq<LogEntry>, s: seq<LogEntry>, at: nat)
    requires Match(f, s) && Shares(f, s, at)
    ensures var r := Merge(f, at, s[at..]); (r == f && s <= f) || (r == s && !(s <= f))
    decreases |s| - at
  {
    if at == |s| {
      assert s[at..] == [];
      assert s == s[..at];
    } else if at == |f| {
      assert s == s[..at] + s[at..];
    } else if f[at].term != s[at].term {
      assert s == s[..at] + s[at..];
    } else {
      assert s[at..][1..] == s[at + 1..];
      MergeTail(f, s, at + 1);
    }
  }
}
