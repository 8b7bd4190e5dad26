/** `value_parser`: split an attribute value on whitespace and parse the first three
    tokens as numbers. Number parsing (`str::parse::<f64>`) is the parameter `parse`,
    a partial function from a token to a number. */
module ValueParser {
  import opened Wrappers
  import opened SceneTypes

  /** Rust's `char::is_whitespace`: the characters with the Unicode White_Space property. */
  predicate IsWhitespace(c: char) {
    || ('\U{0009}' <= c <= '\U{000D}')
    || c == ' '
    || c == '\U{0085}'
    || c == '\U{00A0}'
    || c == '\U{1680}'
    || ('\U{2000}' <= c <= '\U{200A}')
    || c == '\U{2028}'
    || c == '\U{2029}'
    || c == '\U{202F}'
    || c == '\U{205F}'
    || c == '\U{3000}'
  }

  /** What `split_whitespace` yields: a non-empty run of non-whitespace characters. */
  predicate IsToken(t: string) {
    |t| > 0 && forall k :: 0 <= k < |t| ==> !IsWhitespace(t[k])
  }

  /** Length of the maximal whitespace-free prefix of `s`. */
  function WordLength(s: string): (n: nat)
    ensures n <= |s|
    ensures forall k :: 0 <= k < n ==> !IsWhitespace(s[k])
    ensures n < |s| ==> IsWhitespace(s[n])
  {
    if s == [] || IsWhitespace(s[0]) then 0 else 1 + WordLength(s[1..])
  }

  /** `s.split_whitespace().collect()`: the maximal whitespace-free runs of `s`, in order. */
  function Tokens(s: string): (ts: seq<string>)
    ensures forall k :: 0 <= k < |ts| ==> IsToken(ts[k])
    decreases |s|
  {
    if s == [] then []
    else if IsWhitespace(s[0]) then Tokens(s[1..])
    else
      var n := WordLength(s);
      [s[..n]] + Tokens(s[n..])
  }

  /** `s` with every whitespace character removed (reference definition for `Tokens`). */
  function Squeeze(s: string): string {
    if s == [] then [] else (if IsWhitespace(s[0]) then [] else [s[0]]) + Squeeze(s[1..])
  }

  function Concat(ts: seq<string>): string {
    if ts == [] then [] else ts[0] + Concat(ts[1..])
  }

  /** The tokens joined with single spaces. */
  function Join(ts: seq<string>): string {
    if |ts| == 0 then [] else if |ts| == 1 then ts[0] else ts[0] + " " + Join(ts[1..])
  }

  lemma {:induction false} SqueezeAppend(a: string, b: string)
    ensures Squeeze(a + b) == Squeeze(a) + Squeeze(b)
    decreases |a|
  {
    if a != [] {
      assert (a + b)[1..] == a[1..] + b;
      SqueezeAppend(a[1..], b);
    } else {
      assert a + b == b;
    }
  }

  lemma {:induction false} SqueezeWord(w: string)
    requires forall k :: 0 <= k < |w| ==> !IsWhitespace(w[k])
    ensures Squeeze(w) == w
    decreases |w|
  {
    if w != [] {
      SqueezeWord(w[1..]);
    }
  }

  /** No character but whitespace is lost or reordered: the tokens concatenated are
      exactly the non-whitespace characters of the input. */
  lemma {:induction false} TokensConcat(s: string)
    ensures Concat(Tokens(s)) == Squeeze(s)
    decreases |s|
  {
    if s == [] {
    } else if IsWhitespace(s[0]) {
      TokensConcat(s[1..]);
    } else {
      var n := WordLength(s);
      assert s == s[..n] + s[n..];
      SqueezeAppend(s[..n], s[n..]);
      SqueezeWord(s[..n]);
      TokensConcat(s[n..]);
      assert Tokens(s) == [s[..n]] + Tokens(s[n..]);
    }
  }

  /** Leading whitespace produces no token. */
  lemma {:induction false} TokensSkipWhitespace(ws: string, s: string)
    requires forall k :: 0 <= k < |ws| ==> IsWhitespace(ws[k])
    ensures Tokens(ws + s) == Tokens(s)
    decreases |ws|
  {
    if ws == [] {
      assert ws + s == s;
    } else {
      assert (ws + s)[1..] == ws[1..] + s;
      TokensSkipWhitespace(ws[1..], s);
    }
  }

  /** Tokens are maximal: a token followed by whitespace is split off whole, and the
      rest is split on its own. */
  lemma TokensAfterWord(t: string, ws: string, s: string)
    requires IsToken(t)
    requires |ws| > 0 && forall k :: 0 <= k < |ws| ==> IsWhitespace(ws[k])
    ensures Tokens(t + ws + s) == [t] + Tokens(s)
  {
    var x := t + ws + s;
    var n := WordLength(x);
    assert forall k :: 0 <= k < |t| ==> x[k] == t[k];
    assert x[|t|] == ws[0];
    assert n == |t|;
    assert x[..n] == t;
    assert x[n..] == ws + s;
    TokensSkipWhitespace(ws, s);
  }

  /** Round trip: splitting tokens that were joined with spaces gives them back. */
  lemma {:induction false} TokensJoin(ts: seq<string>)
    requires forall k :: 0 <= k < |ts| ==> IsToken(ts[k])
    ensures Tokens(Join(ts)) == ts
    decreases |ts|
  {
    if |ts| == 0 {
    } else {
      var t := ts[0];
      var rest := if |ts| == 1 then [] else " " + Join(ts[1..]);
      var s := t + rest;
      assert s == Join(ts);
      var n := WordLength(s);
      assert forall k :: 0 <= k < |t| ==> s[k] == t[k];
      assert |t| < |s| ==> s[|t|] == ' ';
      assert n == |t|;
      assert s[..n] == t;
      assert s[n..] == rest;
      if |ts| == 1 {
        assert Tokens(s) == [t] + Tokens([]);
      } else {
        assert rest[1..] == Join(ts[1..]);
        TokensJoin(ts[1..]);
        assert Tokens(rest) == Tokens(Join(ts[1..]));
        assert ts == [t] + ts[1..];
      }
    }
  }

  /** Why `value_parser` panics: `parts[index]` is out of bounds (fewer than index + 1
      tokens), or the token at `index` is not a number. */
  datatype TripleError = MissingComponent(index: nat) | BadComponent(index: nat)

  /** The string has at least three tokens and the first three are numbers. */
  predicate ValidTriple(s: string, parse: string -> Option<real>) {
    var parts := Tokens(s);
    |parts| >= 3 && forall k :: 0 <= k < 3 ==> parse(parts[k]).Some?
  }

  /** `parts[k].parse::<f64>().expect(..)`. */
  function Component(parts: seq<string>, k: nat, parse: string -> Option<real>): (r: Result<real, TripleError>)
    ensures r.Success? <==> k < |parts| && parse(parts[k]).Some?
    ensures r.Success? ==> parse(parts[k]) == Some(r.value)
    ensures r.Failure? ==> r.error.index == k && (r.error.MissingComponent? <==> k >= |parts|)
  {
    if k < |parts| then
      match parse(parts[k])
      case Some(v) => Success(v)
      case None => Failure(BadComponent(k))
    else Failure(MissingComponent(k))
  }

  /** `value_parser`: the three components are evaluated left to right, so the first
      missing or unparsable one decides the error. */
  function ParseTriple(s: string, parse: string -> Option<real>): (r: Result<Vec3, TripleError>)
    ensures r.Success? <==> ValidTriple(s, parse)
    ensures r.Success? ==>
      r.value == Vec3(parse(Tokens(s)[0]).value, parse(Tokens(s)[1]).value, parse(Tokens(s)[2]).value)
    ensures r.Failure? ==>
      && r.error.index < 3
      && (forall k :: 0 <= k < r.error.index ==> k < |Tokens(s)| && parse(Tokens(s)[k]).Some?)
      && (r.error.MissingComponent? <==> r.error.index >= |Tokens(s)|)
      && (r.error.BadComponent? ==> parse(Tokens(s)[r.error.index]).None?)
  {
    var parts := Tokens(s);
    var x :- Component(parts, 0, parse);
    var y :- Component(parts, 1, parse);
    var z :- Component(parts, 2, parse);
    Success(Vec3(x, y, z))
  }

  /** Tokens after the third are ignored: any string with three or more tokens parses
      exactly like its first three tokens alone. */
  lemma ParseTripleIgnoresExtra(s: string, parse: string -> Option<real>)
    requires |Tokens(s)| >= 3
    ensures ParseTriple(s, parse) == ParseTriple(Join(Tokens(s)[..3]), parse)
  {
    var a := Tokens(s);
    TokensJoin(a[..3]);
    var b := Tokens(Join(a[..3]));
    assert b == a[..3];
    assert Component(a, 0, parse) == Component(b, 0, parse);
    assert Component(a, 1, parse) == Component(b, 1, parse);
    assert Component(a, 2, parse) == Component(b, 2, parse);
  }
}
