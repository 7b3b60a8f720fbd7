/** The pieces of JavaScript's string semantics and of `process.env` that the
    modelled code relies on: truthiness, `trim`, `split`, `startsWith`. */
module Js {
  import opened Wrappers

  /** `process.env`: a variable is either unset or holds a string. */
  type Env = map<string, string>

  function Lookup(env: Env, name: string): (r: Option<string>)
    ensures r.Some? <==> name in env
    ensures r.Some? ==> r.value == env[name]
  {
    if name in env then Some(env[name]) else None
  }

  /** A string-valued expression is truthy iff it is defined and non-empty. */
  predicate Truthy(v: Option<string>) {
    v.Some? && v.value != ""
  }

  /** `v || fallback` for a possibly undefined string. */
  function OrElse(v: Option<string>, fallback: string): (r: string)
    ensures Truthy(v) ==> r == v.value
    ensures !Truthy(v) ==> r == fallback
  {
    if Truthy(v) then v.value else fallback
  }

  /** `args[k]`: `undefined` outside the bounds, including at index -1. */
  function At(args: seq<string>, k: int): (r: Option<string>)
    ensures r.Some? <==> 0 <= k < |args|
    ensures r.Some? ==> r.value == args[k]
  {
    if 0 <= k < |args| then Some(args[k]) else None
  }

  /** `args.indexOf(x)`: the first position of x, or -1. */
  function IndexOf(args: seq<string>, x: string): (k: int)
    ensures -1 <= k < |args|
    ensures k == -1 <==> x !in args
    ensures k >= 0 ==> args[k] == x && x !in args[..k]
  {
    if |args| == 0 then -1
    else if args[0] == x then 0
    else
      var k := IndexOf(args[1..], x);
      if k == -1 then -1
      else
        assert args[..k + 1] == [args[0]] + args[1..][..k];
        k + 1
  }

  /** `s.startsWith(prefix)`. */
  predicate StartsWith(s: string, prefix: string) {
    |prefix| <= |s| && s[..|prefix|] == prefix
  }

  /** The ECMAScript WhiteSpace and LineTerminator code points, which
      `trim` removes and number parsing skips. */
  predicate IsWhite(c: char) {
    var n := c as int;
    n == 0x09 || n == 0x0A || n == 0x0B || n == 0x0C || n == 0x0D || n == 0x20
    || n == 0xA0 || n == 0x1680 || (0x2000 <= n <= 0x200A) || n == 0x2028
    || n == 0x2029 || n == 0x202F || n == 0x205F || n == 0x3000 || n == 0xFEFF
  }

  predicate AllWhite(s: string) {
    forall i :: 0 <= i < |s| ==> IsWhite(s[i])
  }

  /** The length of the run of white space that s starts with. */
  function LeadingWhite(s: string): (n: nat)
    ensures n <= |s| && AllWhite(s[..n])
    ensures n == |s| || !IsWhite(s[n])
  {
    if s != [] && IsWhite(s[0]) then
      var n := 1 + LeadingWhite(s[1..]);
      assert s[..n] == [s[0]] + s[1..][..n - 1];
      n
    else 0
  }

  /** The length of the run of white space that s ends with. */
  function TrailingWhite(s: string): (n: nat)
    ensures n <= |s| && AllWhite(s[|s| - n..])
    ensures n == |s| || !IsWhite(s[|s| - n - 1])
  {
    if s != [] && IsWhite(s[|s| - 1]) then
      var init := s[..|s| - 1];
      var n := 1 + TrailingWhite(init);
      assert s[|s| - n..] == init[|init| - (n - 1)..] + [s[|s| - 1]];
      n
    else 0
  }

  /** `s.trimStart()`: s without the white space it starts with. */
  function TrimStart(s: string): (r: string)
    ensures r == [] || !IsWhite(r[0])
  {
    s[LeadingWhite(s)..]
  }

  /** `s.trimEnd()`: s without the white space it ends with. */
  function TrimEnd(s: string): (r: string)
    ensures r == [] || !IsWhite(r[|r| - 1])
  {
    s[..|s| - TrailingWhite(s)]
  }

  /** `s.trim()`. */
  function Trim(s: string): (r: string)
  {
    TrimEnd(TrimStart(s))
  }

  /** What `trim` keeps is a contiguous part of s, what it drops on either
      side is white space, and the result neither starts nor ends with
      white space. */
  lemma {:induction false} TrimIsSlice(s: string)
    ensures exists i, j ::
              && 0 <= i <= j <= |s| && Trim(s) == s[i..j]
              && AllWhite(s[..i]) && AllWhite(s[j..])
    ensures Trim(s) == [] || (!IsWhite(Trim(s)[0]) && !IsWhite(Trim(s)[|Trim(s)| - 1]))
  {
    var i := LeadingWhite(s);
    var t := TrimStart(s);
    var n := TrailingWhite(t);
    var j := |s| - n;
    assert t == s[i..];
    assert Trim(s) == t[..|t| - n];
    assert Trim(s) == s[i..j];
    assert AllWhite(s[j..]) by {
      assert s[j..] == t[|t| - n..];
    }
    assert 0 <= i <= j <= |s| && Trim(s) == s[i..j] && AllWhite(s[..i]) && AllWhite(s[j..]);
    if Trim(s) != [] {
      assert Trim(s)[0] == t[0];
    }
  }

  /** White space in front changes nothing once it is trimmed. */
  lemma {:induction false} LeadingWhiteSkipsWhite(w: string, s: string)
    requires AllWhite(w)
    ensures LeadingWhite(w + s) == |w| + LeadingWhite(s)
  {
    if w != [] {
      var ws := w + s;
      assert ws[0] == w[0];
      assert ws[1..] == w[1..] + s;
      assert AllWhite(w[1..]) by {
        forall i | 0 <= i < |w[1..]| ensures IsWhite(w[1..][i]) {
          assert w[1..][i] == w[i + 1];
        }
      }
      LeadingWhiteSkipsWhite(w[1..], s);
    } else {
      assert w + s == s;
    }
  }

  /** White space in front changes nothing once it is trimmed. */
  lemma TrimStartSkipsWhite(w: string, s: string)
    requires AllWhite(w)
    ensures TrimStart(w + s) == TrimStart(s)
  {
    LeadingWhiteSkipsWhite(w, s);
    assert (w + s)[|w|..] == s;
  }

  /** White space at the end is exactly what `trimEnd` counts on top of
      the white space s already ends with. */
  lemma {:induction false} TrailingWhiteSkipsWhite(s: string, w: string)
    requires AllWhite(w)
    ensures TrailingWhite(s + w) == |w| + TrailingWhite(s)
  {
    if w != [] {
      var init := w[..|w| - 1];
      var sw := s + w;
      assert sw[|sw| - 1] == w[|w| - 1];
      assert sw[..|sw| - 1] == s + init;
      assert AllWhite(init) by {
        forall i | 0 <= i < |init| ensures IsWhite(init[i]) {
          assert init[i] == w[i];
        }
      }
      TrailingWhiteSkipsWhite(s, init);
    } else {
      assert s + w == s;
    }
  }

  /** A text that neither starts nor ends with white space is what `trim`
      gives back from it padded with white space on both sides. */
  lemma {:induction false} TrimOfPadded(w1: string, t: string, w2: string)
    requires AllWhite(w1) && AllWhite(w2)
    requires t != [] && !IsWhite(t[0]) && !IsWhite(t[|t| - 1])
    ensures Trim(w1 + t + w2) == t
  {
    var tw := t + w2;
    assert w1 + t + w2 == w1 + tw;
    TrimStartSkipsWhite(w1, tw);
    assert LeadingWhite(tw) == 0 by { assert tw[0] == t[0]; }
    assert TrimStart(tw) == tw by { assert tw[0..] == tw; }
    TrailingWhiteSkipsWhite(t, w2);
    assert TrailingWhite(t) == 0;
    assert tw[..|tw| - |w2|] == t;
  }

  /** Trimming a string of white space leaves nothing. */
  lemma TrimOfBlank(w: string)
    requires AllWhite(w)
    ensures Trim(w) == []
  {
    TrimStartSkipsWhite(w, "");
    assert w + "" == w;
  }

  /** `parts.join(sep)`. */
  function Join(parts: seq<string>, sep: char): string
    requires |parts| >= 1
  {
    if |parts| == 1 then parts[0] else parts[0] + [sep] + Join(parts[1..], sep)
  }

  /** `s.split(sep)` for a one-character separator: the pieces between the
      separators, including empty ones; the empty string splits into `[""]`. */
  function Split(s: string, sep: char): (parts: seq<string>)
    ensures |parts| >= 1
    ensures Join(parts, sep) == s
    ensures forall i :: 0 <= i < |parts| ==> sep !in parts[i]
  {
    if s == [] then [""]
    else
      var rest := Split(s[1..], sep);
      if s[0] == sep then
        assert s == [sep] + s[1..];
        [""] + rest
      else
        var parts := [[s[0]] + rest[0]] + rest[1..];
        assert parts[1..] == rest[1..];
        assert s == [s[0]] + s[1..];
        parts
  }

  /** The number of occurrences of c in s. */
  function Occurrences(s: string, c: char): nat {
    if s == [] then 0 else (if s[0] == c then 1 else 0) + Occurrences(s[1..], c)
  }

  /** Splitting yields one piece more than there are separators. */
  lemma {:induction false} SplitCount(s: string, sep: char)
    ensures |Split(s, sep)| == Occurrences(s, sep) + 1
  {
    if s != [] {
      SplitCount(s[1..], sep);
    }
  }

  /** `s.split(sep).map(o => o.trim())`. */
  function SplitTrim(s: string, sep: char): (r: seq<string>)
    ensures |r| == |Split(s, sep)|
    ensures forall i :: 0 <= i < |r| ==> r[i] == Trim(Split(s, sep)[i])
  {
    var parts := Split(s, sep);
    seq(|parts|, i requires 0 <= i < |parts| => Trim(parts[i]))
  }
}
