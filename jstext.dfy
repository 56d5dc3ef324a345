/**
  * The two JavaScript string operations the page relies on: `String.prototype.trim`
  * (form inputs) and `text.split(/\s+/)` (word count of a narration text).
  * Both use the same character class: ECMAScript WhiteSpace plus LineTerminator.
  */
module JsText {

  /** The characters matched by `\s` and removed by `trim()`. */
  predicate IsSpace(c: char) {
    c == '\t' || c == '\n' || c == '\U{000B}' || c == '\U{000C}' || c == '\r' || c == ' '
    || c == '\U{00A0}' || c == '\U{1680}' || ('\U{2000}' <= c <= '\U{200A}')
    || c == '\U{2028}' || c == '\U{2029}' || c == '\U{202F}' || c == '\U{205F}'
    || c == '\U{3000}' || c == '\U{FEFF}'
  }

  predicate AllSpace(s: string) {
    forall i :: 0 <= i < |s| ==> IsSpace(s[i])
  }

  predicate NoSpace(s: string) {
    forall i :: 0 <= i < |s| ==> !IsSpace(s[i])
  }

  /** The length of the whitespace run that `s` starts with. */
  function LeadingSpaces(s: string): (n: nat)
    ensures n <= |s|
    ensures forall i :: 0 <= i < n ==> IsSpace(s[i])
    ensures n < |s| ==> !IsSpace(s[n])
  {
    if |s| > 0 && IsSpace(s[0]) then
      var n := 1 + LeadingSpaces(s[1..]);
      assert forall i :: 1 <= i < n ==> s[i] == s[1..][i - 1];
      n
    else 0
  }

  /** The length of the whitespace run that `s` ends with. */
  function TrailingSpaces(s: string): (n: nat)
    ensures n <= |s|
    ensures forall i :: |s| - n <= i < |s| ==> IsSpace(s[i])
    ensures n < |s| ==> !IsSpace(s[|s| - n - 1])
  {
    if |s| > 0 && IsSpace(s[|s| - 1]) then
      var n := 1 + TrailingSpaces(s[..|s| - 1]);
      assert forall i :: |s| - n <= i < |s| - 1 ==> s[i] == s[..|s| - 1][i];
      n
    else 0
  }

  /** `s` is blank text of length `k`, then `t`, then blank text. */
  predicate PaddedAt(s: string, k: nat, t: string) {
    k + |t| <= |s| && s[k..k + |t|] == t && AllSpace(s[..k]) && AllSpace(s[k + |t|..])
  }

  /** `s` is `t` with blank text, possibly empty, on either side. */
  ghost predicate Padded(s: string, t: string) {
    exists k: nat :: PaddedAt(s, k, t)
  }

  lemma BlankAround(s: string, k: nat, n: nat)
    requires k + n <= |s|
    requires forall i :: 0 <= i < k ==> IsSpace(s[i])
    requires forall i :: k + n <= i < |s| ==> IsSpace(s[i])
    ensures PaddedAt(s, k, s[k..k + n])
  {
  }

  /**
    * `s.trim()`: the whitespace runs at both ends are cut off, and nothing
    * else. The result is empty exactly when `s` is blank, and otherwise starts
    * and ends with a non-whitespace character.
    */
  function Trim(s: string): (r: string)
    ensures PaddedAt(s, LeadingSpaces(s), r)
    ensures r == [] <==> AllSpace(s)
    ensures r != [] ==> !IsSpace(r[0]) && !IsSpace(r[|r| - 1])
  {
    var a := LeadingSpaces(s);
    var t := s[a..];
    var n := |t| - TrailingSpaces(t);
    assert forall i :: a + n <= i < |s| ==> IsSpace(s[i]) by {
      forall i | a + n <= i < |s| ensures IsSpace(s[i]) {
        assert s[i] == t[i - a];
      }
    }
    BlankAround(s, a, n);
    assert t[..n] == s[a..a + n];
    t[..n]
  }

  /**
    * The trimmed text is unique: whenever `s` is `t` with blank text around
    * it and `t` is empty or has non-whitespace at both ends, `s.trim()` is `t`.
    */
  lemma TrimOfPadded(s: string, k: nat, t: string)
    requires PaddedAt(s, k, t)
    requires t == [] || (!IsSpace(t[0]) && !IsSpace(t[|t| - 1]))
    ensures Trim(s) == t
  {
  }

  /** `s` with every whitespace character deleted. */
  function Strip(s: string): (r: string)
    ensures NoSpace(r)
    ensures |r| <= |s|
  {
    if s == [] then [] else (if IsSpace(s[0]) then [] else [s[0]]) + Strip(s[1..])
  }

  lemma {:induction false} StripAppend(a: string, b: string)
    ensures Strip(a + b) == Strip(a) + Strip(b)
  {
    if a == [] {
      assert a + b == b;
    } else {
      var head := if IsSpace(a[0]) then [] else [a[0]];
      calc {
        Strip(a + b);
        { assert (a + b)[0] == a[0] && (a + b)[1..] == a[1..] + b; }
        head + Strip(a[1..] + b);
        { StripAppend(a[1..], b); }
        head + (Strip(a[1..]) + Strip(b));
        (head + Strip(a[1..])) + Strip(b);
      }
    }
  }

  lemma {:induction false} StripAllSpace(s: string)
    requires AllSpace(s)
    ensures Strip(s) == []
  {
    if s != [] {
      StripAllSpace(s[1..]);
    }
  }

  /** Cutting off a blank piece at either end does not change `Strip`. */
  lemma {:induction false} StripSplitAt(s: string, k: nat)
    requires k <= |s|
    ensures AllSpace(s[..k]) ==> Strip(s) == Strip(s[k..])
    ensures AllSpace(s[k..]) ==> Strip(s) == Strip(s[..k])
  {
    assert s == s[..k] + s[k..];
    StripAppend(s[..k], s[k..]);
    if AllSpace(s[..k]) { StripAllSpace(s[..k]); }
    if AllSpace(s[k..]) { StripAllSpace(s[k..]); }
  }

  /** Trimming deletes whitespace only: the non-whitespace text is kept, in order. */
  lemma {:induction false} TrimKeepsText(s: string)
    ensures Strip(Trim(s)) == Strip(s)
  {
    var a := LeadingSpaces(s);
    var t := s[a..];
    var k := |t| - TrailingSpaces(t);
    assert AllSpace(s[..a]) by {
      forall i | 0 <= i < a ensures IsSpace(s[..a][i]) {
        assert s[..a][i] == s[i];
      }
    }
    StripSplitAt(s, a);
    assert AllSpace(t[k..]) by {
      forall i | 0 <= i < |t| - k ensures IsSpace(t[k..][i]) {
        assert t[k..][i] == t[k + i];
      }
    }
    StripSplitAt(t, k);
  }

  function Concat(pieces: seq<string>): string {
    if pieces == [] then [] else pieces[0] + Concat(pieces[1..])
  }

  /**
    * `s.split(/\s+/)`: the pieces between maximal runs of whitespace. A leading
    * (trailing) run yields an empty first (last) piece, and the empty string
    * yields one empty piece, as in JavaScript.
    */
  function Split(s: string): (r: seq<string>)
    ensures |r| >= 1
    ensures forall i :: 0 <= i < |r| ==> NoSpace(r[i])
    ensures forall i :: 0 < i < |r| - 1 ==> r[i] != []
    ensures |s| > 0 && !IsSpace(s[0]) ==> r[0] != []
  {
    if s == [] then [[]]
    else
      var t := Split(s[1..]);
      if IsSpace(s[0]) then
        if |s| > 1 && IsSpace(s[1]) then t   // the run goes on
        else [[]] + t
      else [[s[0]] + t[0]] + t[1..]
  }

  /** Gluing the pieces of `Split(s)` back together gives back the non-space text of `s`. */
  lemma {:induction false} SplitKeepsText(s: string)
    ensures Concat(Split(s)) == Strip(s)
  {
    if s != [] {
      var t := Split(s[1..]);
      SplitKeepsText(s[1..]);
      if IsSpace(s[0]) {
        assert Concat([[]] + t) == [] + Concat(t);
      } else {
        calc {
          Concat(Split(s));
          ([s[0]] + t[0]) + Concat(t[1..]);
          [s[0]] + (t[0] + Concat(t[1..]));
          { assert Concat(t) == t[0] + Concat(t[1..]); }
          [s[0]] + Strip(s[1..]);
          Strip(s);
        }
      }
    }
  }

  /** Text with no whitespace at all is one piece. */
  lemma {:induction false} SplitOfWord(s: string)
    requires NoSpace(s)
    ensures Split(s) == [s]
  {
    if s != [] {
      SplitOfWord(s[1..]);
      assert [s[0]] + s[1..] == s;
    }
  }

  /** A maximal whitespace run of `s` ends at index `i`. */
  predicate RunEndsAt(s: string, i: nat)
    requires i < |s|
  {
    IsSpace(s[i]) && (i + 1 == |s| || !IsSpace(s[i + 1]))
  }

  /** The number of maximal whitespace runs of `s` that end at index `i` or later. */
  function RunsFrom(s: string, i: nat): nat
    requires i <= |s|
    decreases |s| - i
  {
    if i == |s| then 0 else (if RunEndsAt(s, i) then 1 else 0) + RunsFrom(s, i + 1)
  }

  /** The number of maximal whitespace runs of `s`. */
  function Runs(s: string): nat {
    RunsFrom(s, 0)
  }

  lemma {:induction false} RunsFromTail(s: string, i: nat)
    requires 1 <= i <= |s|
    decreases |s| - i
    ensures RunsFrom(s, i) == RunsFrom(s[1..], i - 1)
  {
    if i < |s| {
      RunsFromTail(s, i + 1);
      assert RunEndsAt(s, i) == RunEndsAt(s[1..], i - 1);
    }
  }

  /** `s.split(/\s+/)` has one piece more than `s` has whitespace runs. */
  lemma {:induction false} SplitCount(s: string)
    ensures |Split(s)| == 1 + Runs(s)
  {
    if s != [] {
      SplitCount(s[1..]);
      RunsFromTail(s, 1);
    }
  }
}
