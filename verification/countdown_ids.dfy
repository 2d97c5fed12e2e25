/** Device ids of the countdown-timer add-on: the configured name with
    `name.replace(/\s+|%/g, '-')` applied. */
module CountdownIds {

  /** JavaScript's `\s`: the ASCII blanks, the no-break space, the Unicode
      space separators, the line and paragraph separators and the byte-order
      mark. */
  predicate IsSpace(c: char)
  {
    || c == ' ' || c == '\t' || c == '\n' || c == '\r' || c == '\U{000B}' || c == '\U{000C}'
    || c == '\U{00A0}' || c == '\U{1680}' || ('\U{2000}' <= c <= '\U{200A}')
    || c == '\U{2028}' || c == '\U{2029}' || c == '\U{202F}' || c == '\U{205F}'
    || c == '\U{3000}' || c == '\U{FEFF}'
  }

  /** A string made of whitespace only. */
  predicate AllSpaces(w: string)
  {
    forall i :: 0 <= i < |w| ==> IsSpace(w[i])
  }

  /** A character the sanitiser replaces. */
  predicate Replaced(c: char)
  {
    IsSpace(c) || c == '%'
  }

  /** No character the sanitiser would replace. */
  predicate Clean(s: string)
  {
    forall i :: 0 <= i < |s| ==> !Replaced(s[i])
  }

  /** What follows the leading whitespace of `s`. */
  function SkipSpaces(s: string): (r: string)
    ensures |r| <= |s|
    ensures r == [] || !IsSpace(r[0])
    decreases |s|
  {
    if s != [] && IsSpace(s[0]) then SkipSpaces(s[1..]) else s
  }

  /** `s` is the whitespace `SkipSpaces` skips followed by what it returns. */
  lemma {:induction false} SkipSpacesSplits(s: string)
    ensures s == s[..|s| - |SkipSpaces(s)|] + SkipSpaces(s)
    ensures AllSpaces(s[..|s| - |SkipSpaces(s)|])
    decreases |s|
  {
    if s != [] && IsSpace(s[0]) {
      SkipSpacesSplits(s[1..]);
      var w := s[1..][..|s| - 1 - |SkipSpaces(s)|];
      assert s[..|s| - |SkipSpaces(s)|] == [s[0]] + w;
    }
  }

  /** A string that starts with whitespace is a non-empty run of whitespace
      followed by a rest that does not start with any. */
  lemma RunSplits(a: string) returns (w: string, c: string)
    requires a != [] && IsSpace(a[0])
    ensures a == w + c && w != [] && AllSpaces(w) && c == SkipSpaces(a[1..])
  {
    var rest := a[1..];
    c := SkipSpaces(rest);
    SkipSpacesSplits(rest);
    var v := rest[..|rest| - |c|];
    w := [a[0]] + v;
    assert a == [a[0]] + rest;
    ConcatAssociates([a[0]], v, c);
    forall i | 0 <= i < |w|
      ensures IsSpace(w[i])
    {
      if i > 0 {
        assert w[i] == v[i - 1];
      }
    }
  }

  /** `s.replace(/\s+|%/g, '-')`: scanning left to right, a run of whitespace
      (taken whole by the greedy `\s+`) or a single `%` becomes one `-`; every
      other character is kept. */
  function Sanitize(s: string): (r: string)
    ensures |r| <= |s|
    ensures Clean(r)
    decreases |s|
  {
    if s == [] then []
    else if IsSpace(s[0]) then "-" + Sanitize(SkipSpaces(s[1..]))
    else if s[0] == '%' then "-" + Sanitize(s[1..])
    else [s[0]] + Sanitize(s[1..])
  }

  /** A name with nothing to replace is kept as it is. */
  lemma {:induction false} SanitizeKeepsClean(s: string)
    requires Clean(s)
    ensures Sanitize(s) == s
    decreases |s|
  {
    if s != [] {
      assert !Replaced(s[0]);
      SanitizeKeepsClean(s[1..]);
    }
  }

  /** Sanitising twice is sanitising once. */
  lemma SanitizeIdempotent(s: string)
    ensures Sanitize(Sanitize(s)) == Sanitize(s)
  {
    SanitizeKeepsClean(Sanitize(s));
  }

  /** Skipping the blanks of `x + y` skips those of `x` and, when `x` is all
      blank, those of `y` too. */
  lemma {:induction false} SkipSpacesConcat(x: string, y: string)
    ensures SkipSpaces(x) != [] ==> SkipSpaces(x + y) == SkipSpaces(x) + y
    ensures SkipSpaces(x) == [] ==> SkipSpaces(x + y) == SkipSpaces(y)
    decreases |x|
  {
    if x == [] {
      assert x + y == y;
    } else {
      assert (x + y)[0] == x[0] && (x + y)[1..] == x[1..] + y;
      if IsSpace(x[0]) {
        SkipSpacesConcat(x[1..], y);
      }
    }
  }

  /** Sanitising splits at any boundary that is not inside a run of
      whitespace: the replacement works piece by piece. */
  lemma {:induction false} SanitizeConcat(a: string, b: string)
    requires a == [] || b == [] || !IsSpace(a[|a| - 1]) || !IsSpace(b[0])
    ensures Sanitize(a + b) == Sanitize(a) + Sanitize(b)
    decreases |a|, 1
  {
    if a == [] {
      assert a + b == b;
    } else if b == [] {
      assert a + b == a;
    } else if IsSpace(a[0]) {
      SanitizeConcatRun(a, b);
    } else {
      assert (a + b)[0] == a[0] && (a + b)[1..] == a[1..] + b;
      SanitizeConcat(a[1..], b);
    }
  }

  /** `SanitizeConcat` when `a` starts with whitespace: `a` is a run `w` of
      whitespace followed by a rest `c` that does not start with any. */
  lemma {:induction false} SanitizeConcatRun(a: string, b: string)
    requires a != [] && b != [] && IsSpace(a[0])
    requires !IsSpace(a[|a| - 1]) || !IsSpace(b[0])
    ensures Sanitize(a + b) == Sanitize(a) + Sanitize(b)
    decreases |a|, 0
  {
    var w, c := RunSplits(a);
    if c == [] {
      assert a == w;
      SanitizeBlankThen(w, b);
    } else {
      assert a[|a| - 1] == c[|c| - 1];
      SanitizeConcat(c, b);
      SanitizeRunThenConcat(w, c, b);
    }
  }

  /** A string of whitespace followed by a string that does not continue it. */
  lemma SanitizeBlankThen(w: string, b: string)
    requires w != [] && AllSpaces(w) && b != []
    requires !IsSpace(w[|w| - 1]) || !IsSpace(b[0])
    ensures Sanitize(w + b) == Sanitize(w) + Sanitize(b)
  {
    SanitizeRun(w, b);
    assert w == w + [];
    SanitizeRun(w, []);
  }

  /** The step of `SanitizeConcatRun` once the rest `c` is known to split. */
  lemma SanitizeRunThenConcat(w: string, c: string, b: string)
    requires w != [] && AllSpaces(w) && c != [] && !IsSpace(c[0])
    requires Sanitize(c + b) == Sanitize(c) + Sanitize(b)
    ensures Sanitize(w + c + b) == Sanitize(w + c) + Sanitize(b)
  {
    ConcatAssociates(w, c, b);
    assert (c + b)[0] == c[0];
    SanitizeRun(w, c + b);
    SanitizeRun(w, c);
    ConcatAssociates("-", Sanitize(c), Sanitize(b));
  }

  lemma ConcatAssociates(x: string, y: string, z: string)
    ensures x + (y + z) == x + y + z
  {
  }

  /** A whole run of whitespace, followed by anything that does not continue
      it, becomes a single `-`. */
  lemma SanitizeRun(w: string, t: string)
    requires w != [] && AllSpaces(w)
    requires t == [] || !IsSpace(t[0])
    ensures Sanitize(w + t) == "-" + Sanitize(t)
  {
    assert (w + t)[0] == w[0] && (w + t)[1..] == w[1..] + t;
    AllSpacesSkipped(w[1..]);
    SkipSpacesConcat(w[1..], t);
  }

  /** A string of blanks is skipped entirely. */
  lemma {:induction false} AllSpacesSkipped(w: string)
    requires AllSpaces(w)
    ensures SkipSpaces(w) == []
    decreases |w|
  {
    if w != [] {
      AllSpacesSkipped(w[1..]);
    }
  }

  /** The characters of `s` that neither the sanitiser touches nor it
      produces. */
  function Kept(s: string): string
    decreases |s|
  {
    if s == [] then []
    else (if Replaced(s[0]) || s[0] == '-' then [] else [s[0]]) + Kept(s[1..])
  }

  /** Skipping blanks drops no kept character. */
  lemma {:induction false} KeptSkipSpaces(s: string)
    ensures Kept(SkipSpaces(s)) == Kept(s)
    decreases |s|
  {
    if s != [] && IsSpace(s[0]) {
      assert Kept(s) == Kept(s[1..]) by { assert Replaced(s[0]); }
      KeptSkipSpaces(s[1..]);
    }
  }

  /** The sanitiser keeps every other character, in order: it only replaces. */
  lemma {:induction false} SanitizeKeepsOthers(s: string)
    ensures Kept(Sanitize(s)) == Kept(s)
    decreases |s|
  {
    if s != [] {
      if IsSpace(s[0]) {
        var c := SkipSpaces(s[1..]);
        assert ("-" + Sanitize(c))[1..] == Sanitize(c);
        SanitizeKeepsOthers(c);
        KeptSkipSpaces(s[1..]);
      } else {
        var r := Sanitize(s[1..]);
        assert ([s[0]] + r)[1..] == r && ("-" + r)[1..] == r;
        SanitizeKeepsOthers(s[1..]);
      }
    }
  }

  const IdPrefix: string := "countdown-timer-device-"

  /** The id `addDeviceFromConfig` derives from a configured name. */
  function DeviceId(name: string): (id: string)
    ensures |IdPrefix| <= |id| <= |IdPrefix| + |name|
    ensures id[..|IdPrefix|] == IdPrefix && Clean(id[|IdPrefix|..])
  {
    IdPrefix + Sanitize(name)
  }

  /** A run of whitespace and a single `%` between two characters the
      sanitiser keeps both become one `-`. */
  lemma SeparatorCollapses(x: char, y: char, w: string)
    requires !Replaced(x) && !Replaced(y)
    requires w == "%" || (w != [] && AllSpaces(w))
    ensures DeviceId([x] + w + [y]) == IdPrefix + [x, '-', y]
  {
    assert [x] + w + [y] == [x] + (w + [y]);
    SanitizeKeepsClean([x]);
    SanitizeKeepsClean([y]);
    SanitizeConcat([x], w + [y]);
    assert Sanitize(w + [y]) == "-" + [y] by {
      if w == "%" {
        assert (w + [y])[0] == '%' && (w + [y])[1..] == [y];
      } else {
        SanitizeRun(w, [y]);
      }
    }
    assert [x] + ("-" + [y]) == [x, '-', y];
  }

  /** Different names can share an id: a space, a run of blanks and a `%`
      all become the same `-`, so the add-on refuses the second device. */
  lemma DistinctNamesCollide()
    ensures DeviceId("a b") == DeviceId("a%b") == DeviceId("a \t b") == IdPrefix + "a-b"
  {
    SeparatorCollapses('a', 'b', " ");
    SeparatorCollapses('a', 'b', "%");
    SeparatorCollapses('a', 'b', " \t ");
    assert "a b" == "a" + " " + "b" && "a%b" == "a" + "%" + "b" && "a \t b" == "a" + " \t " + "b";
  }
}
