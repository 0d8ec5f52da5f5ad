/** Facts about sequences that the proofs of several modules share. */
module SeqFacts {
  /** Two and four elements make six. */
  lemma TwoThenFour<T>(a: T, b: T, c: T, d: T, x: T, y: T)
    ensures [a, b] + [c, d, x, y] == [a, b, c, d, x, y]
  {
  }

  /** Sequences equal at every position are equal. */
  lemma SameElements<T>(a: seq<T>, b: seq<T>)
    requires |a| == |b| && forall i :: 0 <= i < |a| ==> a[i] == b[i]
    ensures a == b
  {
  }

  /** Appending to a run appends to what the run was appended to. */
  lemma JoinRun<T>(whole: seq<T>, before: seq<T>, base: seq<T>, run: seq<T>, last: seq<T>, full: seq<T>)
    requires before == base + run && whole == before + last && full == run + last
    ensures whole == base + full
  {
  }

  /** A prefix one longer is the shorter prefix and the next element. */
  lemma PrefixSnoc<T>(s: seq<T>, k: nat)
    requires 0 < k <= |s|
    ensures s[..k - 1] + [s[k - 1]] == s[..k]
  {
  }

  /** A sequence is what comes before position `i`, its element there, and
      what comes after. */
  lemma Around<T>(s: seq<T>, i: nat)
    requires i < |s|
    ensures s == s[..i] + [s[i]] + s[i + 1..]
  {
  }

  /** `sep.join(parts)`: the parts, with `sep` between each two of them. */
  function Join<T>(parts: seq<seq<T>>, sep: seq<T>): (r: seq<T>)
    ensures |parts| == 1 ==> r == parts[0]
    ensures |parts| >= 1 ==> parts[0] <= r
  {
    if |parts| == 0 then []
    else if |parts| == 1 then parts[0]
    else parts[0] + sep + Join(parts[1..], sep)
  }

  /** Joining six parts puts the separator between each two of them. */
  lemma JoinSix<T>(a: seq<T>, b: seq<T>, c: seq<T>, d: seq<T>, e: seq<T>, f: seq<T>, sep: seq<T>)
    ensures Join([a, b, c, d, e, f], sep) == a + sep + b + sep + c + sep + d + sep + e + sep + f
  {
    var q4, q3, q2, q1, p := [e, f], [d, e, f], [c, d, e, f], [b, c, d, e, f], [a, b, c, d, e, f];
    assert q4[1..] == [f] && q3[1..] == q4 && q2[1..] == q3 && q1[1..] == q2 && p[1..] == q1;
    var j4 := e + sep + f;
    assert Join(q4, sep) == j4;
    var j3 := d + sep + j4;
    assert Join(q3, sep) == j3 == d + sep + e + sep + f;
    var j2 := c + sep + j3;
    assert Join(q2, sep) == j2 == c + sep + d + sep + e + sep + f;
    var j1 := b + sep + j2;
    assert Join(q1, sep) == j1 == b + sep + c + sep + d + sep + e + sep + f;
    assert Join(p, sep) == a + sep + j1;
  }

  /** Regrouping a concatenation of four parts. */
  lemma Regroup<T>(a: seq<T>, b: seq<T>, c: seq<T>, d: seq<T>)
    ensures a + ((b + c) + d) == ((a + b) + c) + d
  {
  }

  /** The three parts of a concatenation are its slices. */
  lemma ThreeParts<T>(a: seq<T>, b: seq<T>, c: seq<T>)
    ensures var t := a + b + c;
      |t| == |a| + |b| + |c| && t[..|a|] == a && t[|a|..|a| + |b|] == b && t[|a| + |b|..] == c
  {
  }
}
