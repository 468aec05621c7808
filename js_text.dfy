/**
 * The few JavaScript string and array primitives the core relies on:
 * `String.prototype.trim`, the ASCII part of `toLowerCase` followed by
 * `startsWith`, and the order-preserving "subsequence" relation that
 * `Array.prototype.filter` establishes.
 */
module JsText {

  /** ECMAScript WhiteSpace and LineTerminator code points, the set `trim` removes. */
  predicate IsWhitespace(c: char)
  {
    || c == '\t' || c == '\n' || c == '\U{000B}' || c == '\U{000C}' || c == '\r'
    || c == ' ' || c == '\U{00A0}' || c == '\U{1680}'
    || ('\U{2000}' <= c <= '\U{200A}')
    || c == '\U{2028}' || c == '\U{2029}' || c == '\U{202F}' || c == '\U{205F}'
    || c == '\U{3000}' || c == '\U{FEFF}'
  }

  predicate AllWhitespace(s: string)
  {
    forall i :: 0 <= i < |s| ==> IsWhitespace(s[i])
  }

  /** Drops the leading white space. */
  function TrimStart(s: string): string
  {
    if s != [] && IsWhitespace(s[0]) then TrimStart(s[1..]) else s
  }

  /** The result is the longest suffix not starting with white space. */
  lemma {:induction false} TrimStartSpec(s: string)
    ensures var r := TrimStart(s);
      && |r| <= |s| && r == s[|s| - |r|..]
      && (r == [] || !IsWhitespace(r[0]))
      && (forall i :: 0 <= i < |s| - |r| ==> IsWhitespace(s[i]))
  {
    if s != [] && IsWhitespace(s[0]) {
      TrimStartSpec(s[1..]);
      assert forall i :: 1 <= i < |s| ==> s[i] == s[1..][i - 1];
    }
  }

  /** Drops the trailing white space. */
  function TrimEnd(s: string): string
  {
    if s != [] && IsWhitespace(s[|s| - 1]) then TrimEnd(s[..|s| - 1]) else s
  }

  /** The result is the longest prefix not ending with white space. */
  lemma {:induction false} TrimEndSpec(s: string)
    ensures var r := TrimEnd(s);
      && |r| <= |s| && r == s[..|r|]
      && (r == [] || !IsWhitespace(r[|r| - 1]))
      && (forall i :: |r| <= i < |s| ==> IsWhitespace(s[i]))
  {
    if s != [] && IsWhitespace(s[|s| - 1]) {
      TrimEndSpec(s[..|s| - 1]);
    }
  }

  /** `s.trim()`. */
  function Trim(s: string): string
  {
    TrimEnd(TrimStart(s))
  }

  /** The trimmed text is empty exactly when the text is all white space. */
  lemma TrimEmptyIffBlank(s: string)
    ensures Trim(s) == [] <==> AllWhitespace(s)
  {
    TrimStartSpec(s);
    TrimEndSpec(TrimStart(s));
  }

  /** Trimming twice changes nothing more: a trimmed text has no white space at either end. */
  lemma TrimIdempotent(s: string)
    ensures Trim(Trim(s)) == Trim(s)
  {
    var u := TrimStart(s);
    var t := Trim(s);
    TrimStartSpec(s);
    TrimEndSpec(u);
    TrimEndSpec(t);
    if t != [] {
      assert t == u[..|t|];
      assert t[0] == u[0];
      assert TrimStart(t) == t;
    } else {
      assert TrimStart(t) == t;
    }
  }

  /** The ASCII letters of `toLowerCase`; no other code point lowers to a letter of "invalid". */
  function LowerAscii(c: char): (r: char)
    ensures 'A' <= c <= 'Z' ==> 'a' <= r <= 'z'
    ensures !('A' <= c <= 'Z') ==> r == c
  {
    if 'A' <= c <= 'Z' then (c as int + 32) as char else c
  }

  /** `s.toLowerCase().startsWith(prefix)` for a lower-case ASCII `prefix`. */
  predicate LowerStartsWith(s: string, prefix: string)
  {
    |prefix| <= |s| && forall i :: 0 <= i < |prefix| ==> LowerAscii(s[i]) == prefix[i]
  }

  /** `a` is `b` with some elements left out, the others in their original order. */
  predicate Subseq<T(==)>(a: seq<T>, b: seq<T>)
    decreases |b|
  {
    if a == [] then true
    else if b == [] then false
    else if a[0] == b[0] then Subseq(a[1..], b[1..])
    else Subseq(a, b[1..])
  }

  lemma SubseqCons<T>(x: T, a: seq<T>, b: seq<T>)
    requires Subseq(a, b)
    ensures Subseq([x] + a, [x] + b)
  {
    assert ([x] + a)[1..] == a;
    assert ([x] + b)[1..] == b;
  }

  lemma SubseqSkip<T>(x: T, a: seq<T>, b: seq<T>)
    requires Subseq(a, b)
    ensures Subseq(a, [x] + b)
    decreases |b| + 1, 0
  {
    assert ([x] + b)[1..] == b;
    if a != [] && a[0] == x {
      SubseqDropHead(a, b);
    }
  }

  lemma {:induction false} SubseqDropHead<T>(a: seq<T>, b: seq<T>)
    requires a != [] && Subseq(a, b)
    ensures Subseq(a[1..], b)
    decreases |b|, 1
  {
    if a[0] == b[0] {
      if a[1..] != [] {
        SubseqSkip(b[0], a[1..], b[1..]);
        assert [b[0]] + b[1..] == b;
      }
    } else {
      SubseqDropHead(a, b[1..]);
      if a[1..] != [] {
        SubseqSkip(b[0], a[1..], b[1..]);
        assert [b[0]] + b[1..] == b;
      }
    }
  }

  predicate NoDuplicates<T(==)>(s: seq<T>)
  {
    forall i, j :: 0 <= i < j < |s| ==> s[i] != s[j]
  }

  /** `lines.join(sep)`. */
  function Join(lines: seq<string>, sep: string): (r: string)
    ensures lines == [] ==> r == ""
    ensures |lines| == 1 ==> r == lines[0]
  {
    if lines == [] then ""
    else if |lines| == 1 then lines[0]
    else lines[0] + sep + Join(lines[1..], sep)
  }

  /**
   * The message of the `ValidationError` that Mongoose's `save` or `create`
   * throws for the model `modelName`: the failing paths' messages, joined.
   */
  function ValidationFailed(modelName: string, errors: seq<string>): (r: string)
    ensures |errors| == 1 ==> r == modelName + " validation failed: " + errors[0]
  {
    modelName + " validation failed: " + Join(errors, ", ")
  }

  /** Shifting every element of a set by one keeps its size. */
  lemma {:induction false} ShiftKeepsSize(b: set<int>)
    ensures |set i | i in b :: i + 1| == |b|
    decreases |b|
  {
    if b != {} {
      if forall y :: y !in b { assert false; }
      var x :| x in b;
      ShiftKeepsSize(b - {x});
      var smaller := set i | i in b - {x} :: i + 1;
      var whole := set i | i in b :: i + 1;
      forall y | y in whole ensures y in smaller + {x + 1} {
        var j :| j in b && y == j + 1;
        if j != x { assert j in b - {x}; }
      }
      assert whole == smaller + {x + 1};
      assert x + 1 !in smaller;
    }
  }

  /**
   * Counting a set of positions from the head: position 0 (when `head`
   * holds) and the positions of the tail, each moved up by one.
   */
  lemma CountPositionsCons(all: set<int>, tail: set<int>, n: nat, head: bool)
    requires forall i :: i in all <==> (i == 0 && head) || (1 <= i < n && i - 1 in tail)
    requires forall i :: i in tail ==> 0 <= i < n - 1
    ensures |all| == (if head then 1 else 0) + |tail|
  {
    var shifted := set i | i in tail :: i + 1;
    ShiftKeepsSize(tail);
    var first: set<int> := if head then {0} else {};
    forall i | i in all ensures i in first + shifted {
      if i != 0 { assert i - 1 in tail; }
    }
    assert all == first + shifted;
    assert 0 !in shifted;
  }
}
