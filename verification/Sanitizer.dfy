/** The log sanitiser shared by the adapters, on sequences of runes. */
module Sanitizer {

  const MAX_RUNES: nat := 256
  const ELLIPSIS: char := '\U{2026}'

  predicate IsControl(r: char) {
    r < '\U{0020}' || r == '\U{007f}'
  }

  /** The runes of s that are not control characters, in order. */
  function Printable(s: string): (p: string)
    ensures |p| <= |s|
    ensures forall i :: 0 <= i < |p| ==> !IsControl(p[i])
  {
    if s == "" then ""
    else if IsControl(s[|s| - 1]) then Printable(s[..|s| - 1])
    else Printable(s[..|s| - 1]) + [s[|s| - 1]]
  }

  /** Reference definition: filter, then cut at 256 runes with an ellipsis. */
  function Sanitized(s: string): string {
    var p := Printable(s);
    if |p| < MAX_RUNES then p else p[..MAX_RUNES] + [ELLIPSIS]
  }

  lemma PrintableNext(s: string, i: nat)
    requires i < |s|
    ensures Printable(s[..i + 1]) == Printable(s[..i]) + if IsControl(s[i]) then "" else [s[i]]
  {
    assert s[..i + 1][..i] == s[..i];
  }

  /** The loop of the source, which stops reading at the 256th rune it keeps. */
  method SanitizeForLog(s: string) returns (b: string)
    ensures b == Sanitized(s)
  {
    b := "";
    var n, i := 0, 0;
    while i < |s|
      invariant 0 <= i <= |s| && n == |b| < MAX_RUNES
      invariant b == Printable(s[..i])
    {
      var r := s[i];
      PrintableNext(s, i);
      i := i + 1;
      if IsControl(r) {
        continue;
      }
      b := b + [r];
      n := n + 1;
      if n >= MAX_RUNES {
        PrintablePrefix(s, i);
        b := b + [ELLIPSIS];
        return;
      }
    }
    assert s[..i] == s;
  }

  lemma {:induction false} PrintablePrefix(s: string, i: nat)
    requires i <= |s|
    ensures Printable(s[..i]) <= Printable(s)
    decreases |s|
  {
    if i == |s| {
      assert s[..i] == s;
    } else {
      PrintablePrefix(s[..|s| - 1], i);
      assert s[..|s| - 1][..i] == s[..i];
    }
  }

  lemma {:induction false} PrintableIsFixed(s: string)
    requires forall i :: 0 <= i < |s| ==> !IsControl(s[i])
    ensures Printable(s) == s
  {
    if s != "" {
      PrintableIsFixed(s[..|s| - 1]);
      assert s == s[..|s| - 1] + [s[|s| - 1]];
    }
  }

  /** The increasing positions of s whose runes the filter keeps. */
  function Kept(s: string): (k: seq<nat>)
    ensures |k| == |Printable(s)|
    ensures forall i :: 0 <= i < |k| ==> k[i] < |s| && s[k[i]] == Printable(s)[i]
    ensures forall i, j :: 0 <= i < j < |k| ==> k[i] < k[j]
    ensures forall p :: 0 <= p < |s| ==> (p in k <==> !IsControl(s[p]))
  {
    if s == "" then []
    else
      var k := Kept(s[..|s| - 1]);
      if IsControl(s[|s| - 1]) then k else k + [|s| - 1]
  }

  /** Log output: no control characters, at most 257 runes, a selection of the input in its order. */
  lemma SanitizedIsSafe(s: string)
    ensures var r := Sanitized(s);
      && |r| <= 257
      && (forall i :: 0 <= i < |r| ==> ' ' <= r[i] != '\U{007f}')
      && (forall i :: 0 <= i < |r| && i < MAX_RUNES ==> Kept(s)[i] < |s| && r[i] == s[Kept(s)[i]])
  {
    var k := Kept(s);
  }

  /** Sanitising twice is sanitising once. */
  lemma SanitizedIsFixed(s: string)
    ensures Sanitized(Sanitized(s)) == Sanitized(s)
  {
    var r := Sanitized(s);
    assert forall i :: 0 <= i < |r| ==> !IsControl(r[i]);
    PrintableIsFixed(r);
  }

  /** Unchanged is exactly: printable, and under 256 runes or already cut. */
  lemma UnchangedExactly(s: string)
    ensures Sanitized(s) == s <==>
              (forall i :: 0 <= i < |s| ==> ' ' <= s[i] != '\U{007f}')
              && (|s| < 256 || (|s| == 257 && s[256] == '\U{2026}'))
  {
    if forall i :: 0 <= i < |s| ==> ' ' <= s[i] != '\U{007f}' {
      PrintableIsFixed(s);
    } else {
      SanitizedIsSafe(s);
    }
  }

  /** What the documentation says: filter, and truncate to 256 runes. */
  function Documented(s: string): string {
    var p := Printable(s);
    if |p| <= MAX_RUNES then p else p[..MAX_RUNES]
  }

  /** The code does what is documented exactly if fewer than 256 printable runes are left. */
  lemma AsDocumentedExactly(s: string)
    ensures Sanitized(s) == Documented(s) <==> |Printable(s)| < MAX_RUNES
    ensures |Sanitized(s)| <= 256 <==> |Printable(s)| < 256
  {
    assert |Printable(s)| >= MAX_RUNES ==> |Sanitized(s)| == MAX_RUNES + 1;
  }

  /** Text of exactly 256 printable runes is not cut, and still marked as if it were. */
  lemma MarkedThoughComplete() returns (s: string)
    ensures |s| == 256 && Sanitized(s) == s + ['\U{2026}'] && Documented(s) == s
  {
    s := seq(MAX_RUNES, i => 'a');
    PrintableIsFixed(s);
  }
}
