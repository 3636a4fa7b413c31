/** String helpers that the modelled Go code takes from its standard library, on strings of bytes. */
module Text {

  predicate IsSpace(c: char) {
    c in {' ', '\t', '\n', '\r', 11 as char, 12 as char}
  }

  function TrimLeft(s: string): string {
    if s != [] && IsSpace(s[0]) then TrimLeft(s[1..]) else s
  }

  function TrimRight(s: string): string {
    if s != [] && IsSpace(s[|s| - 1]) then TrimRight(s[..|s| - 1]) else s
  }

  function TrimSpace(s: string): string {
    TrimRight(TrimLeft(s))
  }

  function LowerChar(c: char): char {
    if 'A' <= c <= 'Z' then ((c as int) + 32) as char else c
  }

  function ToLower(s: string): string {
    seq(|s|, i requires 0 <= i < |s| => LowerChar(s[i]))
  }

  predicate Contains(s: string, sub: string) {
    exists i :: 0 <= i <= |s| && sub <= s[i..]
  }

  /** Decimal rendering, as `%d` prints it. */
  function Itoa(n: int): string
    decreases n < 0, if n < 0 then -n else n
  {
    if n < 0 then "-" + Itoa(-n)
    else if n < 10 then [('0' as int + n) as char]
    else Itoa(n / 10) + Itoa(n % 10)
  }

  /** The characters are equal, or the first is the capital of the second. */
  predicate SameLetter(c: char, w: char) {
    c == w || ('a' <= w <= 'z' && c as int + 32 == w as int)
  }

  /** The word stands at position i of s, in capitals or not. */
  predicate WordAt(s: string, i: nat, w: string) {
    i + |w| <= |s| && forall j :: 0 <= j < |w| ==> SameLetter(s[i + j], w[j])
  }

  /** A word without capitals, and without space at its ends. */
  predicate IsWord(w: string) {
    && w != "" && !IsSpace(w[0]) && !IsSpace(w[|w| - 1])
    && forall j :: 0 <= j < |w| ==> !('A' <= w[j] <= 'Z')
  }

  lemma LowerIsSame(c: char, w: char)
    requires !('A' <= w <= 'Z')
    ensures LowerChar(c) == w <==> SameLetter(c, w)
  {
  }

  lemma {:induction false} TrimLeftDrops(s: string) returns (a: nat)
    ensures a <= |s| && TrimLeft(s) == s[a..] && (forall i :: 0 <= i < a ==> IsSpace(s[i])) && (a < |s| ==> !IsSpace(s[a]))
  {
    if s != [] && IsSpace(s[0]) {
      var b := TrimLeftDrops(s[1..]);
      a := b + 1;
      assert forall i :: 0 <= i < a ==> i == 0 || s[i] == s[1..][i - 1];
    } else {
      a := 0;
    }
  }

  lemma {:induction false} TrimRightDrops(s: string) returns (b: nat)
    ensures b <= |s| && TrimRight(s) == s[..b] && (forall i :: b <= i < |s| ==> IsSpace(s[i])) && (b > 0 ==> !IsSpace(s[b - 1]))
  {
    if s != [] && IsSpace(s[|s| - 1]) {
      b := TrimRightDrops(s[..|s| - 1]);
      assert forall i :: b <= i < |s| ==> i == |s| - 1 || s[i] == s[..|s| - 1][i];
    } else {
      b := |s|;
    }
  }

  /** Trimming drops exactly the space at both ends. */
  lemma TrimDrops(s: string) returns (a: nat, b: nat)
    ensures a <= b <= |s| && TrimSpace(s) == s[a..b]
    ensures forall i :: 0 <= i < a || (a < b <= i < |s|) ==> IsSpace(s[i])
    ensures a < b ==> !IsSpace(s[a]) && !IsSpace(s[b - 1])
    ensures a == b ==> forall i :: 0 <= i < |s| ==> IsSpace(s[i])
  {
    hide TrimLeft, TrimRight, IsSpace;
    a := TrimLeftDrops(s);
    var rest := s[a..];
    var n := TrimRightDrops(rest);
    b := a + n;
    assert s[a..][..n] == s[a..b];
    assert forall i :: b <= i < |s| ==> s[i] == rest[i - a];
    assert n > 0 ==> rest[n - 1] == s[b - 1];
    assert a < |s| ==> rest[0] == s[a];
  }

  /** Text without space at its ends is still there after trimming, at its place. */
  lemma TrimKeeps(s: string, i: nat, n: nat) returns (a: nat, b: nat)
    requires 0 < n && i + n <= |s| && !IsSpace(s[i]) && !IsSpace(s[i + n - 1])
    ensures a <= i && i + n <= b <= |s| && TrimSpace(s) == s[a..b]
    ensures forall k :: 0 <= k < a ==> IsSpace(s[k])
    ensures !IsSpace(s[a])
  {
    hide TrimSpace, IsSpace;
    a, b := TrimDrops(s);
  }

  lemma LowerHasWord(s: string, i: nat, w: string)
    requires IsWord(w)
    ensures (i <= |s| && w <= ToLower(s)[i..]) <==> WordAt(s, i, w)
  {
    if i + |w| <= |s| {
      var low := ToLower(s);
      assert low[i..][..|w|] == low[i..i + |w|];
      forall j | 0 <= j < |w| ensures low[i + j] == w[j] <==> SameLetter(s[i + j], w[j]) { LowerIsSame(s[i + j], w[j]); }
      if WordAt(s, i, w) { assert low[i..i + |w|] == w; }
      if w <= low[i..] { assert forall j :: 0 <= j < |w| ==> low[i + j] == w[j]; }
    }
  }

  lemma LetterIsNoSpace(c: char, w: char)
    requires SameLetter(c, w) && !IsSpace(w)
    ensures !IsSpace(c)
  {
  }

  /** The trimmed text contains a word, whatever its case, exactly if the text itself does. */
  lemma TrimmedContainsWord(s: string, w: string)
    requires IsWord(w)
    ensures Contains(ToLower(TrimSpace(s)), w) <==> exists i: nat :: WordAt(s, i, w)
  {
    hide IsSpace, TrimSpace, ToLower, SameLetter;
    var t := TrimSpace(s);
    var a, b := TrimDrops(s);
    if Contains(ToLower(t), w) {
      var i :| 0 <= i <= |ToLower(t)| && w <= ToLower(t)[i..];
      LowerLength(t);
      LowerHasWord(t, i, w);
      assert forall k :: i <= k < i + |w| ==> t[k] == s[a + k];
      assert WordAt(s, a + i, w);
    }
    if i: nat :| WordAt(s, i, w) {
      WordSurvives(s, i, w);
      LowerLength(t);
    }
  }

  lemma LowerLength(s: string)
    ensures |ToLower(s)| == |s|
  {
  }

  lemma WordSurvives(s: string, i: nat, w: string)
    requires IsWord(w) && WordAt(s, i, w)
    ensures Contains(ToLower(TrimSpace(s)), w)
  {
    hide TrimSpace, ToLower;
    LetterIsNoSpace(s[i], w[0]);
    LetterIsNoSpace(s[i + |w| - 1], w[|w| - 1]);
    var a, b := TrimKeeps(s, i, |w|);
    var t := TrimSpace(s);
    assert forall k :: i <= k < i + |w| ==> t[k - a] == s[k];
    LowerHasWord(t, i - a, w);
    LowerLength(t);
  }

  /** The trimmed text starts with a word exactly if the text does behind its leading space. */
  lemma TrimmedStartsWithWord(s: string, w: string)
    requires IsWord(w)
    ensures w <= ToLower(TrimSpace(s)) <==> exists i: nat :: WordAt(s, i, w) && forall k :: 0 <= k < i ==> IsSpace(s[k])
  {
    hide IsSpace, TrimSpace, ToLower, SameLetter;
    var t := TrimSpace(s);
    var a, b := TrimDrops(s);
    LowerLength(t);
    LowerHasWord(t, 0, w);
    assert ToLower(t)[0..] == ToLower(t);
    if WordAt(t, 0, w) {
      assert forall j :: 0 <= j < |w| ==> t[j] == s[a + j];
      assert WordAt(s, a, w);
    }
    if i: nat :| WordAt(s, i, w) && forall k :: 0 <= k < i ==> IsSpace(s[k]) {
      LetterIsNoSpace(s[i], w[0]);
      LetterIsNoSpace(s[i + |w| - 1], w[|w| - 1]);
      var c, d := TrimKeeps(s, i, |w|);
      assert c == i;
      assert forall j :: 0 <= j < |w| ==> t[j] == s[i + j];
    }
  }

  predicate Digits(s: string) {
    forall i :: 0 <= i < |s| ==> '0' <= s[i] <= '9'
  }

  function Number(s: string): int {
    if s == "" then 0 else 10 * Number(s[..|s| - 1]) + (s[|s| - 1] as int - '0' as int)
  }

  /** Reading a rendered number gives it back. */
  lemma {:induction false} ItoaNumber(n: nat)
    ensures Digits(Itoa(n)) && Number(Itoa(n)) == n
    decreases n
  {
    var s := Itoa(n);
    if n < 10 {
      assert s[..|s| - 1] == "";
    } else {
      ItoaNumber(n / 10);
      ItoaNumber(n % 10);
      assert s[..|s| - 1] == Itoa(n / 10);
    }
  }

  /** Lexicographic order, as Go compares strings with `<`. */
  predicate Less(a: string, b: string) {
    b != [] && (a == [] || a[0] < b[0] || (a[0] == b[0] && Less(a[1..], b[1..])))
  }

  lemma CommonHead(a: string, b: string, n: nat)
    requires 0 < n <= |a| && n <= |b|
    ensures a[..n] == b[..n] ==> a[0] == b[0]
  {
    assert a[..n][0] == a[0] && b[..n][0] == b[0];
  }

  /** The order is that of the first difference, and a prefix comes before what it is continued to. */
  lemma {:induction false} LessIff(a: string, b: string)
    ensures Less(a, b) <==> exists n: nat :: n <= |a| && n < |b| && a[..n] == b[..n] && (n == |a| || a[n] < b[n])
  {
    if b != [] && a != [] && a[0] == b[0] {
      var x, y := a[1..], b[1..];
      LessIff(x, y);
      if n: nat :| n <= |x| && n < |y| && x[..n] == y[..n] && (n == |x| || x[n] < y[n]) {
        assert a[..n + 1] == [a[0]] + x[..n] && b[..n + 1] == [b[0]] + y[..n];
        assert n + 1 <= |a| && n + 1 < |b| && a[..n + 1] == b[..n + 1] && (n + 1 == |a| || a[n + 1] < b[n + 1]);
      }
      if n: nat :| n <= |a| && n < |b| && a[..n] == b[..n] && (n == |a| || a[n] < b[n]) {
        assert n > 0;
        assert x[..n - 1] == a[..n][1..] && y[..n - 1] == b[..n][1..];
      }
    } else if b != [] {
      assert a[..0] == b[..0];
      forall n: nat | 0 < n <= |a| && n <= |b| ensures a[..n] == b[..n] ==> a[0] == b[0] { CommonHead(a, b, n); }
    }
  }

  lemma {:induction false} LessTransitive(a: string, b: string, c: string)
    requires Less(a, b) && Less(b, c)
    ensures Less(a, c)
  {
    if a != [] && a[0] == b[0] && b[0] == c[0] {
      LessTransitive(a[1..], b[1..], c[1..]);
    }
  }

  lemma {:induction false} LessTotal(a: string, b: string)
    ensures Less(a, b) || a == b || Less(b, a)
    ensures !(Less(a, b) && Less(b, a))
    ensures a == b ==> !Less(a, b)
  {
    if a != [] && b != [] && a[0] == b[0] {
      LessTotal(a[1..], b[1..]);
      assert a == [a[0]] + a[1..] && b == [b[0]] + b[1..];
    }
  }
}
