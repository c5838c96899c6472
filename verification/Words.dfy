/** What Go's strings.Fields and strings.TrimSpace return, said without their loops. */
module Words {
  import opened Basics

  /** A maximal run of non-space characters. */
  predicate WordAt(s: string, i: int, j: int) {
    && 0 <= i < j <= |s| && (forall k :: i <= k < j ==> !IsSpace(s[k]))
    && (i == 0 || IsSpace(s[i - 1])) && (j == |s| || IsSpace(s[j]))
  }

  ghost predicate IsWord(s: string, w: string) { exists i, j :: WordAt(s, i, j) && s[i..j] == w }

  lemma {:induction false} WordEndIs(s: string, i: nat)
    requires i <= |s|
    ensures forall k :: i <= k < WordEnd(s, i) ==> !IsSpace(s[k])
    ensures WordEnd(s, i) == |s| || IsSpace(s[WordEnd(s, i)])
    decreases |s| - i
  {
    if i < |s| && !IsSpace(s[i]) {
      WordEndIs(s, i + 1);
    }
  }

  /** The words of a suffix that starts at a word boundary are the words of the string from there on. */
  lemma ShiftWord(s: string, n: nat, i: nat, j: nat)
    requires n <= |s| && (n == |s| || IsSpace(s[n]) || (n > 0 && IsSpace(s[n - 1])))
    ensures WordAt(s[n..], i, j) <==> WordAt(s, i + n, j + n)
    ensures i <= j && j + n <= |s| ==> s[n..][i..j] == s[i + n..j + n]
  {
    var t := s[n..];
    assert forall k :: 0 <= k < |t| ==> t[k] == s[k + n];
    if WordAt(t, i, j) {
      assert t[i] == s[i + n];
      forall k | i + n <= k < j + n ensures !IsSpace(s[k]) { assert t[k - n] == s[k]; }
      if i > 0 { assert t[i - 1] == s[i + n - 1]; }
      if j < |t| { assert t[j] == s[j + n]; }
    }
    if WordAt(s, i + n, j + n) {
      assert !IsSpace(s[i + n]);
      forall k | i <= k < j ensures !IsSpace(t[k]) { assert t[k] == s[k + n]; }
      if i > 0 { assert t[i - 1] == s[i + n - 1]; }
      if j < |t| { assert t[j] == s[j + n]; }
    }
  }

  lemma SuffixWords(s: string, n: nat, w: string)
    requires 0 < n <= |s| && (n == |s| || IsSpace(s[n]) || IsSpace(s[n - 1]))
    ensures IsWord(s[n..], w) <==> exists i, j :: n <= i && WordAt(s, i, j) && s[i..j] == w
  {
    if IsWord(s[n..], w) {
      var i, j :| WordAt(s[n..], i, j) && s[n..][i..j] == w;
      ShiftWord(s, n, i, j);
      assert WordAt(s, i + n, j + n) && s[i + n..j + n] == w;
    }
    if exists i, j :: n <= i && WordAt(s, i, j) && s[i..j] == w {
      var i, j :| n <= i && WordAt(s, i, j) && s[i..j] == w;
      ShiftWord(s, n, i - n, j - n);
      assert WordAt(s[n..], i - n, j - n) && s[n..][i - n..j - n] == w;
    }
  }

  /** strings.Fields returns exactly the words. */
  lemma {:induction false} FieldsAreWords(s: string, w: string)
    ensures w in Fields(s) <==> IsWord(s, w)
    decreases |s|
  {
    if s == "" {
    } else if IsSpace(s[0]) {
      FieldsAreWords(s[1..], w);
      SuffixWords(s, 1, w);
      assert forall i, j :: WordAt(s, i, j) ==> 1 <= i;
    } else {
      var n := WordEnd(s, 0);
      WordEndIs(s, 0);
      FieldsAreWords(s[n..], w);
      SuffixWords(s, n, w);
      FirstWord(s, n);
      assert Fields(s) == [s[..n]] + Fields(s[n..]);
      assert s[0..n] == s[..n];
    }
  }

  lemma FirstWord(s: string, n: nat)
    requires 0 < n <= |s| && (forall k :: 0 <= k < n ==> !IsSpace(s[k])) && (n == |s| || IsSpace(s[n]))
    ensures WordAt(s, 0, n)
    ensures forall i, j :: WordAt(s, i, j) && i < n ==> i == 0 && j == n
  {
  }

  /** strings.TrimSpace drops the spaces at both ends and nothing else. */
  lemma TrimmedIs(s: string) returns (a: nat, b: nat)
    ensures a <= b <= |s| && TrimSpace(s) == s[a..b]
    ensures (forall k :: 0 <= k < a ==> IsSpace(s[k])) && (forall k :: b <= k < |s| ==> IsSpace(s[k]))
    ensures a < b ==> !IsSpace(s[a]) && !IsSpace(s[b - 1])
  {
    a := LeftTrimmedIs(s);
    var n := RightTrimmedIs(s[a..]);
    b := a + n;
    assert TrimSpace(s) == s[a..][..n] == s[a..b];
    forall k | b <= k < |s| ensures IsSpace(s[k]) { assert s[k] == s[a..][k - a]; }
    if a < b { assert s[b - 1] == s[a..][n - 1]; }
  }

  lemma {:induction false} LeftTrimmedIs(s: string) returns (a: nat)
    ensures a <= |s| && TrimLeft(s) == s[a..] && (forall k :: 0 <= k < a ==> IsSpace(s[k])) && (a < |s| ==> !IsSpace(s[a]))
    decreases |s|
  {
    if s != "" && IsSpace(s[0]) {
      var b := LeftTrimmedIs(s[1..]);
      a := b + 1;
      assert s[1..][b..] == s[a..];
      forall k | 0 <= k < a ensures IsSpace(s[k]) { if k > 0 { assert s[k] == s[1..][k - 1]; } }
    } else {
      a := 0;
    }
  }

  lemma {:induction false} RightTrimmedIs(s: string) returns (n: nat)
    ensures n <= |s| && TrimRight(s) == s[..n] && (forall k :: n <= k < |s| ==> IsSpace(s[k])) && (n > 0 ==> !IsSpace(s[n - 1]))
    decreases |s|
  {
    if s != "" && IsSpace(s[|s| - 1]) {
      n := RightTrimmedIs(s[..|s| - 1]);
      assert s[..|s| - 1][..n] == s[..n];
    } else {
      n := |s|;
    }
  }
}
