/**
 * `ImageUploader.sanitizeFilename` (js/admin.js): lower-case the name,
 * replace every run of whitespace by one underscore, then delete every
 * character outside [a-z0-9_.-].
 *
 * Whitespace is the set that the JavaScript regular expression class `\s`
 * matches. Lower-casing maps A-Z to a-z, and the two upper-case code points
 * whose lower case contains an ASCII letter: U+0130 (to "i" followed by
 * U+0307) and the Kelvin sign U+212A (to "k"). Every other character is
 * kept; JavaScript lower-cases some of them to other non-ASCII letters,
 * which the last step deletes either way.
 */
module Filename {

  /** A character of the JavaScript `\s` class. */
  predicate IsSpace(c: char)
  {
    || c == '\t' || c == '\n' || c == '\U{000B}' || c == '\U{000C}' || c == '\r' || c == ' '
    || c == '\U{00A0}' || c == '\U{1680}' || ('\U{2000}' <= c <= '\U{200A}')
    || c == '\U{2028}' || c == '\U{2029}' || c == '\U{202F}' || c == '\U{205F}'
    || c == '\U{3000}' || c == '\U{FEFF}'
  }

  /** A character of the class [a-z0-9_.-]. */
  predicate IsAllowed(c: char)
  {
    ('a' <= c <= 'z') || ('0' <= c <= '9') || c == '_' || c == '.' || c == '-'
  }

  predicate IsUpper(c: char)
  {
    'A' <= c <= 'Z'
  }

  predicate AllAllowed(s: string)
  {
    forall i | 0 <= i < |s| :: IsAllowed(s[i])
  }

  predicate IsAscii(s: string)
  {
    forall i | 0 <= i < |s| :: s[i] < '\U{0080}'
  }

  // ---------------------------------------------------------------------
  // The three steps
  // ---------------------------------------------------------------------

  /** The lower case of one character. */
  function LowerChar(c: char): string
  {
    if IsUpper(c) then [(c as int + 32) as char]
    else if c == '\U{0130}' then "i\U{0307}"
    else if c == '\U{212A}' then "k"
    else [c]
  }

  /** Lower-casing one character yields at least one character, none of
      them upper case; it yields whitespace exactly when given whitespace,
      keeps ASCII single and ASCII, and leaves whitespace and the allowed
      characters alone. */
  lemma LowerCharFacts(c: char)
    ensures |LowerChar(c)| >= 1
    ensures forall i | 0 <= i < |LowerChar(c)| ::
      !IsUpper(LowerChar(c)[i]) && (IsSpace(LowerChar(c)[i]) <==> IsSpace(c))
    ensures c < '\U{0080}' ==> |LowerChar(c)| == 1 && LowerChar(c)[0] < '\U{0080}'
    ensures IsSpace(c) || IsAllowed(c) ==> LowerChar(c) == [c]
  {
  }

  /** toLowerCase(). */
  function LowerCase(s: string): (r: string)
  {
    if s == [] then [] else LowerCase(s[..|s| - 1]) + LowerChar(s[|s| - 1])
  }

  /** The suffix of s after its leading whitespace. */
  function DropSpaces(s: string): (r: string)
    ensures |r| <= |s|
  {
    if s != [] && IsSpace(s[0]) then DropSpaces(s[1..]) else s
  }

  /** replace(/\s+/g, '_'): every maximal run of whitespace becomes one '_'. */
  function Collapse(s: string): (r: string)
    ensures |r| <= |s|
    decreases |s|
  {
    if s == [] then []
    else if IsSpace(s[0]) then "_" + Collapse(DropSpaces(s[1..]))
    else [s[0]] + Collapse(s[1..])
  }

  /** replace(/[^a-z0-9_.-]/g, ''): keep the allowed characters, in order. */
  function Keep(s: string): (r: string)
    ensures |r| <= |s|
  {
    if s == [] then []
    else if IsAllowed(s[0]) then [s[0]] + Keep(s[1..])
    else Keep(s[1..])
  }

  /** sanitizeFilename(name). */
  function Sanitize(name: string): (r: string)
    ensures AllAllowed(r)
  {
    var collapsed := Collapse(LowerCase(name));
    KeepFilters(collapsed);
    Keep(collapsed)
  }

  // ---------------------------------------------------------------------
  // The character class of the result
  // ---------------------------------------------------------------------

  /** The filter keeps exactly the allowed characters: all of them, in
      order, and nothing else. */
  lemma {:induction false} KeepFilters(s: string)
    ensures AllAllowed(Keep(s))
    ensures AllAllowed(s) ==> Keep(s) == s
  {
    if s != [] {
      KeepFilters(s[1..]);
      if IsAllowed(s[0]) {
        assert Keep(s) == [s[0]] + Keep(s[1..]);
        assert s == [s[0]] + s[1..];
      } else {
        assert Keep(s) == Keep(s[1..]);
      }
    }
  }

  /** The filter invents nothing: its result is a sub-multiset of its input. */
  lemma {:induction false} KeepInventsNothing(s: string)
    ensures multiset(Keep(s)) <= multiset(s)
  {
    if s != [] {
      KeepInventsNothing(s[1..]);
      assert s == [s[0]] + s[1..];
      assert multiset(s) == multiset([s[0]]) + multiset(s[1..]);
    }
  }

  /** Every character of a sanitized name is in [a-z0-9_.-]; in particular
      none is upper case and none is whitespace. */
  lemma SanitizeAllowed(name: string)
    ensures AllAllowed(Sanitize(name))
    ensures forall i | 0 <= i < |Sanitize(name)| ::
      !IsUpper(Sanitize(name)[i]) && !IsSpace(Sanitize(name)[i])
  {
    KeepFilters(Collapse(LowerCase(name)));
  }

  // ---------------------------------------------------------------------
  // Lengths
  // ---------------------------------------------------------------------

  /** Lower-casing ASCII text keeps it ASCII and of the same length. */
  lemma {:induction false} LowerCaseAscii(s: string)
    requires IsAscii(s)
    ensures |LowerCase(s)| == |s| && IsAscii(LowerCase(s))
  {
    if s != [] {
      LowerCaseAscii(s[..|s| - 1]);
      LowerCharFacts(s[|s| - 1]);
    }
  }

  /** On ASCII input the sanitized name is never longer than the input. */
  lemma SanitizeShrinksAscii(s: string)
    requires IsAscii(s)
    ensures |Sanitize(s)| <= |s|
  {
    LowerCaseAscii(s);
  }

  // ---------------------------------------------------------------------
  // Idempotence
  // ---------------------------------------------------------------------

  /** Allowed text is its own lower case. */
  lemma {:induction false} LowerCaseAllowed(s: string)
    requires AllAllowed(s)
    ensures LowerCase(s) == s
  {
    if s != [] {
      LowerCaseAllowed(s[..|s| - 1]);
      LowerCharFacts(s[|s| - 1]);
      assert s == s[..|s| - 1] + [s[|s| - 1]];
    }
  }

  /** Text without whitespace is left alone by the collapsing step. */
  lemma {:induction false} CollapseNoSpace(s: string)
    requires forall i | 0 <= i < |s| :: !IsSpace(s[i])
    ensures Collapse(s) == s
    decreases |s|
  {
    if s != [] {
      CollapseNoSpace(s[1..]);
      assert s == [s[0]] + s[1..];
    }
  }

  /** A name made of allowed characters only is already sanitized. */
  lemma SanitizeAllowedName(s: string)
    requires AllAllowed(s)
    ensures Sanitize(s) == s
  {
    LowerCaseAllowed(s);
    CollapseNoSpace(s);
    KeepFilters(s);
  }

  /** Sanitizing a sanitized name changes nothing. */
  lemma SanitizeIdempotent(s: string)
    ensures Sanitize(Sanitize(s)) == Sanitize(s)
  {
    SanitizeAllowed(s);
    SanitizeAllowedName(Sanitize(s));
  }

  // ---------------------------------------------------------------------
  // Whitespace runs
  // ---------------------------------------------------------------------

  lemma {:induction false} LowerCaseConcat(a: string, b: string)
    ensures LowerCase(a + b) == LowerCase(a) + LowerCase(b)
    decreases |b|
  {
    if b == [] {
      assert a + b == a;
    } else {
      var ab, b', c := a + b, b[..|b| - 1], b[|b| - 1];
      assert ab[..|ab| - 1] == a + b';
      assert ab[|ab| - 1] == c;
      var lc := LowerChar(c);
      assert LowerCase(b) == LowerCase(b') + lc;
      calc {
        LowerCase(ab);
        LowerCase(a + b') + lc;
        { LowerCaseConcat(a, b'); }
        (LowerCase(a) + LowerCase(b')) + lc;
        LowerCase(a) + (LowerCase(b') + lc);
      }
    }
  }

  /** Lower-casing maps a whitespace run to itself. */
  lemma {:induction false} LowerCaseSpaces(w: string)
    requires forall i | 0 <= i < |w| :: IsSpace(w[i])
    ensures LowerCase(w) == w
  {
    if w != [] {
      LowerCaseSpaces(w[..|w| - 1]);
      LowerCharFacts(w[|w| - 1]);
      assert w == w[..|w| - 1] + [w[|w| - 1]];
    }
  }

  /** Lower-casing keeps a non-space last character non-space. */
  lemma LowerCaseLast(s: string)
    requires s != [] && !IsSpace(s[|s| - 1])
    ensures LowerCase(s) != [] && !IsSpace(LowerCase(s)[|LowerCase(s)| - 1])
  {
    var r := LowerChar(s[|s| - 1]);
    LowerCharFacts(s[|s| - 1]);
    assert LowerCase(s) == LowerCase(s[..|s| - 1]) + r;
    assert !IsSpace(r[|r| - 1]);
  }

  /** Lower-casing keeps a non-space first character non-space. */
  lemma LowerCaseFirst(s: string)
    requires s != [] && !IsSpace(s[0])
    ensures LowerCase(s) != [] && !IsSpace(LowerCase(s)[0])
  {
    LowerCaseConcat([s[0]], s[1..]);
    assert s == [s[0]] + s[1..];
    assert [s[0]][..0] == [];
    assert LowerCase([s[0]]) == LowerChar(s[0]);
    LowerCharFacts(s[0]);
  }

  /** Dropping the leading whitespace of a + b stays inside a when a ends in
      a non-space character, and leaves a suffix of a that ends in it. */
  lemma {:induction false} DropSpacesConcat(a: string, b: string)
    requires a != [] && !IsSpace(a[|a| - 1])
    ensures DropSpaces(a + b) == DropSpaces(a) + b
    ensures DropSpaces(a) != [] && DropSpaces(a)[|DropSpaces(a)| - 1] == a[|a| - 1]
    ensures |DropSpaces(a)| <= |a|
    decreases |a|
  {
    if IsSpace(a[0]) {
      DropSpacesConcat(a[1..], b);
      assert (a + b)[1..] == a[1..] + b;
    }
  }

  /** A run ending before the end of `a` is collapsed inside `a`. */
  lemma {:induction false} CollapseConcat(a: string, b: string)
    requires a == [] || !IsSpace(a[|a| - 1])
    ensures Collapse(a + b) == Collapse(a) + Collapse(b)
    decreases |a|
  {
    if a == [] {
      assert a + b == b;
    } else {
      var ab := a + b;
      assert ab[0] == a[0];
      assert ab[1..] == a[1..] + b;
      if IsSpace(a[0]) {
        DropSpacesConcat(a[1..], b);
        var rest := DropSpaces(a[1..]);
        calc {
          Collapse(ab);
          "_" + Collapse(rest + b);
          { CollapseConcat(rest, b); }
          "_" + (Collapse(rest) + Collapse(b));
          "_" + Collapse(rest) + Collapse(b);
        }
      } else {
        calc {
          Collapse(ab);
          [a[0]] + Collapse(a[1..] + b);
          { CollapseConcat(a[1..], b); }
          [a[0]] + (Collapse(a[1..]) + Collapse(b));
          [a[0]] + Collapse(a[1..]) + Collapse(b);
        }
      }
    }
  }

  /** Leading whitespace in front of non-space text is dropped entirely. */
  lemma {:induction false} SpacesThen(w: string, v: string)
    requires forall i | 0 <= i < |w| :: IsSpace(w[i])
    requires v == [] || !IsSpace(v[0])
    ensures DropSpaces(w + v) == v
    decreases |w|
  {
    if w == [] {
      assert w + v == v;
    } else {
      SpacesThen(w[1..], v);
      assert (w + v)[1..] == w[1..] + v;
    }
  }

  /** A non-empty whitespace run in front of non-space text becomes one '_'. */
  lemma CollapseRun(w: string, v: string)
    requires w != [] && forall i | 0 <= i < |w| :: IsSpace(w[i])
    requires v == [] || !IsSpace(v[0])
    ensures Collapse(w + v) == "_" + Collapse(v)
  {
    var wv := w + v;
    assert wv[0] == w[0];
    assert wv[1..] == w[1..] + v;
    SpacesThen(w[1..], v);
    assert Collapse(wv) == "_" + Collapse(DropSpaces(wv[1..]));
  }

  lemma {:induction false} KeepConcat(a: string, b: string)
    ensures Keep(a + b) == Keep(a) + Keep(b)
    decreases |a|
  {
    if a == [] {
      assert a + b == b;
    } else {
      var ab := a + b;
      assert ab[0] == a[0];
      assert ab[1..] == a[1..] + b;
      KeepConcat(a[1..], b);
      if IsAllowed(a[0]) {
        assert Keep(ab) == [a[0]] + Keep(a[1..] + b);
        assert Keep(a) == [a[0]] + Keep(a[1..]);
      } else {
        assert Keep(ab) == Keep(a[1..] + b);
        assert Keep(a) == Keep(a[1..]);
      }
    }
  }

  /** The first step of SanitizeRun: lower-casing leaves the run in place. */
  lemma LowerRun(u: string, w: string, v: string)
    requires forall i | 0 <= i < |w| :: IsSpace(w[i])
    ensures LowerCase(u + w + v) == LowerCase(u) + (w + LowerCase(v))
  {
    var lu, lv := LowerCase(u), LowerCase(v);
    calc {
      LowerCase(u + w + v);
      { LowerCaseConcat(u + w, v); }
      LowerCase(u + w) + lv;
      { LowerCaseConcat(u, w); }
      LowerCase(u) + LowerCase(w) + lv;
      { LowerCaseSpaces(w); }
      lu + w + lv;
    }
  }

  /** The second step of SanitizeRun: the run becomes one '_'. */
  lemma CollapseAround(a: string, w: string, b: string)
    requires a == [] || !IsSpace(a[|a| - 1])
    requires w != [] && forall i | 0 <= i < |w| :: IsSpace(w[i])
    requires b == [] || !IsSpace(b[0])
    ensures Collapse(a + (w + b)) == Collapse(a) + ("_" + Collapse(b))
  {
    CollapseConcat(a, w + b);
    CollapseRun(w, b);
  }

  /** The last step of SanitizeRun: the '_' is allowed and stays. */
  lemma KeepAround(a: string, b: string)
    ensures Keep(a + ("_" + b)) == Keep(a) + "_" + Keep(b)
  {
    KeepConcat(a, "_" + b);
    KeepConcat("_", b);
    assert Keep("_") == "_" by {
      assert "_"[1..] == [];
    }
  }

  /** Each maximal whitespace run between two pieces of a name becomes a
      single '_' between their sanitized forms. */
  lemma SanitizeRun(u: string, w: string, v: string)
    requires u == [] || !IsSpace(u[|u| - 1])
    requires w != [] && forall i | 0 <= i < |w| :: IsSpace(w[i])
    requires v == [] || !IsSpace(v[0])
    ensures Sanitize(u + w + v) == Sanitize(u) + "_" + Sanitize(v)
  {
    LowerRun(u, w, v);
    if u != [] {
      LowerCaseLast(u);
    }
    if v != [] {
      LowerCaseFirst(v);
    }
    CollapseAround(LowerCase(u), w, LowerCase(v));
    KeepAround(Collapse(LowerCase(u)), Collapse(LowerCase(v)));
  }
}
