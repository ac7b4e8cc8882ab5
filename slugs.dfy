/**
  What both shortener controllers share: the 62-character slug alphabet, the
  random-slug generator driven by `Math.random`, and the normalisation of a
  user-supplied slug (`slug.replace(/\s+/g, '-').toLowerCase()`).
 */
module Slugs {

  /** The slug alphabet, `A-Z`, `a-z`, `0-9` in that order. */
  const Characters: string := "ABCDEFGHIJKLMNOPQRSTUVWXYZabcdefghijklmnopqrstuvwxyz0123456789"

  /** `Math.floor(Math.random() * characters.length)`: an index into the alphabet. */
  type CharIndex = i: int | 0 <= i < 62

  /**
    `Math.random` as an oracle: `draw(n)` is the alphabet index that the n-th
    call, scaled by 62 and floored, yields; `calls` counts the calls made so far.
   */
  class Random {
    const draw: nat -> CharIndex
    var calls: nat

    constructor (draw: nat -> CharIndex)
      ensures this.draw == draw && calls == 0
    {
      this.draw := draw;
      calls := 0;
    }

    method Next() returns (i: CharIndex)
      modifies this
      ensures i == draw(old(calls)) && calls == old(calls) + 1
    {
      i := draw(calls);
      calls := calls + 1;
    }
  }

  /** The slug spelled by the `n` draws starting at call number `start`. */
  function DrawnSlug(draw: nat -> CharIndex, start: nat, n: nat): (s: string)
    ensures |s| == n && InAlphabet(s)
  {
    seq(n, k requires 0 <= k < n => Characters[draw(start + k)])
  }

  /** True when every character of `s` is in the slug alphabet. */
  predicate InAlphabet(s: string)
  {
    forall k :: 0 <= k < |s| ==> s[k] in Characters
  }

  /**
    The body of `getRandomSlug`: the loop runs `counter` from 0 through `length`
    inclusive, appending one drawn character each time, so it yields
    `length + 1` characters.
   */
  method RandomSlug(rng: Random, length: nat) returns (slug: string)
    modifies rng
    ensures rng.calls == old(rng.calls) + length + 1
    ensures slug == DrawnSlug(rng.draw, old(rng.calls), length + 1)
    ensures |slug| == length + 1 && InAlphabet(slug)
  {
    var counter := 0;
    slug := "";
    while counter <= length
      invariant 0 <= counter <= length + 1
      invariant rng.calls == old(rng.calls) + counter
      invariant slug == DrawnSlug(rng.draw, old(rng.calls), counter)
    {
      var i := rng.Next();
      assert DrawnSlug(rng.draw, old(rng.calls), counter + 1)
          == DrawnSlug(rng.draw, old(rng.calls), counter) + [Characters[i]];
      slug := slug + [Characters[i]];
      counter := counter + 1;
    }
  }

  // ---------------------------------------------------------------------------
  // Normalisation of a user slug

  /** The characters the JavaScript regular-expression class `\s` matches. */
  const JsWhitespace: set<char> := {
    '\t', '\n', '\U{000B}', '\U{000C}', '\r', ' ', '\U{00A0}', '\U{1680}',
    '\U{2000}', '\U{2001}', '\U{2002}', '\U{2003}', '\U{2004}', '\U{2005}',
    '\U{2006}', '\U{2007}', '\U{2008}', '\U{2009}', '\U{200A}', '\U{2028}',
    '\U{2029}', '\U{202F}', '\U{205F}', '\U{3000}', '\U{FEFF}'
  }

  predicate IsSpace(c: char)
  {
    c in JsWhitespace
  }

  predicate SpaceFree(s: string)
  {
    forall k :: 0 <= k < |s| ==> !IsSpace(s[k])
  }

  predicate IsUpper(c: char)
  {
    'A' <= c <= 'Z'
  }

  /** `toLowerCase` on one character, for the ASCII letters. */
  function LowerChar(c: char): (d: char)
  {
    if IsUpper(c) then (c as int + 32) as char else c
  }

  /** `toLowerCase` on a string. */
  function Lower(s: string): (r: string)
  {
    seq(|s|, k requires 0 <= k < |s| => LowerChar(s[k]))
  }

  /** The suffix of `s` after its leading whitespace run. */
  function DropSpaces(s: string): (r: string)
    ensures |r| <= |s| && r == s[|s| - |r|..]
    ensures r == [] || !IsSpace(r[0])
  {
    if s != [] && IsSpace(s[0]) then DropSpaces(s[1..]) else s
  }

  /** `s.replace(/\s+/g, '-')`: every maximal whitespace run becomes one `-`. */
  function HyphenateSpaces(s: string): (r: string)
    ensures SpaceFree(r)
    ensures |r| <= |s|
    decreases |s|
  {
    if s == [] then []
    else if IsSpace(s[0]) then "-" + HyphenateSpaces(DropSpaces(s[1..]))
    else [s[0]] + HyphenateSpaces(s[1..])
  }

  /** `slug.replace(/\s+/g, '-').toLowerCase()`. */
  function Normalise(s: string): (r: string)
  {
    Lower(HyphenateSpaces(s))
  }

  /** Lowercasing neither creates whitespace nor leaves an upper-case ASCII letter. */
  lemma LowerKeepsSpaceFree(s: string)
    requires SpaceFree(s)
    ensures SpaceFree(Lower(s))
    ensures forall k :: 0 <= k < |Lower(s)| ==> !IsUpper(Lower(s)[k])
  {
    forall k | 0 <= k < |s|
      ensures !IsSpace(Lower(s)[k]) && !IsUpper(Lower(s)[k])
    {
      var c := s[k];
      if IsUpper(c) {
        assert 97 <= LowerChar(c) as int <= 122;
      }
    }
  }

  /** Concatenation is associative. */
  lemma Associative(x: string, y: string, z: string)
    ensures x + (y + z) == x + y + z
  {
  }

  /** Lowercasing works character by character, so it distributes over concatenation. */
  lemma LowerConcat(s: string, t: string)
    ensures Lower(s + t) == Lower(s) + Lower(t)
  {
  }

  /** A normalised slug has no whitespace, no upper-case ASCII letter and is no longer than its input. */
  lemma NormaliseShape(s: string)
    ensures SpaceFree(Normalise(s))
    ensures forall k :: 0 <= k < |Normalise(s)| ==> !IsUpper(Normalise(s)[k])
    ensures |Normalise(s)| <= |s|
  {
    LowerKeepsSpaceFree(HyphenateSpaces(s));
  }

  /** Text without whitespace passes through the whitespace replacement unchanged. */
  lemma {:induction false} HyphenateSpacesOfSpaceFree(s: string)
    requires SpaceFree(s)
    ensures HyphenateSpaces(s) == s
    decreases |s|
  {
    if s != [] {
      assert !IsSpace(s[0]);
      assert SpaceFree(s[1..]) by {
        forall k | 0 <= k < |s[1..]| ensures !IsSpace(s[1..][k]) {
          assert s[1..][k] == s[k + 1];
        }
      }
      HyphenateSpacesOfSpaceFree(s[1..]);
    }
  }

  /** Lowercasing text that has no upper-case ASCII letter changes nothing. */
  lemma LowerOfLowercase(s: string)
    requires forall k :: 0 <= k < |s| ==> !IsUpper(s[k])
    ensures Lower(s) == s
  {
  }

  /** A slug without whitespace is only lowercased. */
  lemma NormaliseSpaceFree(s: string)
    requires SpaceFree(s)
    ensures Normalise(s) == Lower(s)
  {
    HyphenateSpacesOfSpaceFree(s);
  }

  /** Normalising twice gives the same slug as normalising once. */
  lemma NormaliseIdempotent(s: string)
    ensures Normalise(Normalise(s)) == Normalise(s)
  {
    var t := Normalise(s);
    NormaliseShape(s);
    HyphenateSpacesOfSpaceFree(t);
    LowerOfLowercase(t);
  }

  /** True when `w` is a non-empty run of whitespace. */
  predicate SpaceRun(w: string)
  {
    w != [] && forall k :: 0 <= k < |w| ==> IsSpace(w[k])
  }

  lemma {:induction false} DropSpacesOfRun(w: string, b: string)
    requires forall k :: 0 <= k < |w| ==> IsSpace(w[k])
    requires b == [] || !IsSpace(b[0])
    ensures DropSpaces(w + b) == b
    decreases |w|
  {
    if w != [] {
      assert (w + b)[1..] == w[1..] + b;
      DropSpacesOfRun(w[1..], b);
    } else {
      assert w + b == b;
    }
  }

  /** A whitespace-free prefix is copied unchanged by the whitespace replacement. */
  lemma {:induction false} HyphenateSpacesOfPrefix(a: string, t: string)
    requires SpaceFree(a)
    ensures HyphenateSpaces(a + t) == a + HyphenateSpaces(t)
    decreases |a|
  {
    if a == [] {
      assert a + t == t;
    } else {
      assert (a + t)[0] == a[0] && !IsSpace(a[0]);
      assert (a + t)[1..] == a[1..] + t;
      assert SpaceFree(a[1..]) by {
        forall k | 0 <= k < |a[1..]| ensures !IsSpace(a[1..][k]) {
          assert a[1..][k] == a[k + 1];
        }
      }
      HyphenateSpacesOfPrefix(a[1..], t);
      assert a + HyphenateSpaces(t) == [a[0]] + (a[1..] + HyphenateSpaces(t));
    }
  }

  /** A whitespace run at the front, followed by no more whitespace, becomes one `-`. */
  lemma HyphenateSpacesOfLeadingRun(w: string, b: string)
    requires SpaceRun(w) && (b == [] || !IsSpace(b[0]))
    ensures HyphenateSpaces(w + b) == "-" + HyphenateSpaces(b)
  {
    assert (w + b)[0] == w[0];
    assert (w + b)[1..] == w[1..] + b;
    DropSpacesOfRun(w[1..], b);
  }

  /**
    The step of the whitespace replacement: a whitespace-free prefix is kept,
    the maximal whitespace run after it becomes one `-`, and the replacement
    carries on with the rest, which starts with no whitespace.
   */
  lemma HyphenateSpacesOfRun(a: string, w: string, b: string)
    requires SpaceFree(a) && SpaceRun(w) && (b == [] || !IsSpace(b[0]))
    ensures HyphenateSpaces(a + w + b) == a + "-" + HyphenateSpaces(b)
  {
    var x, h := w + b, HyphenateSpaces(b);
    HyphenateSpacesOfPrefix(a, x);
    HyphenateSpacesOfLeadingRun(w, b);
    Associative(a, w, b);
    Associative(a, "-", h);
  }

  /**
    Each maximal whitespace run becomes one `-`: normalising a whitespace-free
    part, a run and a rest that does not start with whitespace gives the
    lowercased part, a `-` and the normalised rest.
   */
  lemma NormaliseRun(a: string, w: string, b: string)
    requires SpaceFree(a) && SpaceRun(w) && (b == [] || !IsSpace(b[0]))
    ensures Normalise(a + w + b) == Lower(a) + "-" + Normalise(b)
  {
    var h := HyphenateSpaces(b);
    HyphenateSpacesOfRun(a, w, b);
    Associative(a, "-", h);
    LowerConcat(a, "-" + h);
    LowerConcat("-", h);
    assert Lower("-") == "-";
    Associative(Lower(a), "-", Lower(h));
  }

  /**
    One whitespace run between two whitespace-free parts becomes a single `-`,
    and both parts are lowercased.
   */
  lemma NormaliseSingleRun(a: string, w: string, b: string)
    requires SpaceFree(a) && SpaceRun(w) && SpaceFree(b)
    ensures Normalise(a + w + b) == Lower(a) + "-" + Lower(b)
  {
    assert b == [] || !IsSpace(b[0]);
    NormaliseRun(a, w, b);
    NormaliseSpaceFree(b);
  }

  /** Leading whitespace is not trimmed: it becomes a leading `-`. */
  lemma NormaliseLeadingSpace(s: string)
    requires s != [] && IsSpace(s[0])
    ensures Normalise(s) != [] && Normalise(s)[0] == '-'
  {
  }

  /** "My Slug" normalises to "my-slug". */
  lemma NormaliseMySlug()
    ensures Normalise("My Slug") == "my-slug"
  {
    var a, w, b := "My", " ", "Slug";
    assert "My Slug" == a + w + b;
    assert SpaceFree(a) && SpaceRun(w) && SpaceFree(b);
    NormaliseSingleRun(a, w, b);
    assert Lower(a) == "my" by {
      assert LowerChar('M') == 'm';
    }
    assert Lower(b) == "slug" by {
      assert LowerChar('S') == 's';
    }
    assert "my" + "-" + "slug" == "my-slug";
  }
}
