/** String helpers: Python's substring test (`a in b`) and the single-field
    `str.format` substitution the command templates use. */
module Text {

  datatype Option<T> = None | Some(value: T)

  /** Python's `sub in s` on strings: `sub` occurs at some position of `s`. */
  predicate Contains(s: string, sub: string): (r: bool)
    ensures sub == [] ==> r
    ensures r ==> |sub| <= |s|
    decreases |s|
  {
    sub <= s || (s != [] && Contains(s[1..], sub))
  }

  /** `sub` sits in `s` at position `i`. */
  predicate OccursAt(s: string, sub: string, i: int)
  {
    0 <= i <= |s| - |sub| && s[i..i + |sub|] == sub
  }

  /** `Contains` agrees with the positional reading of a substring. */
  lemma {:induction false} ContainsAt(s: string, sub: string)
    ensures Contains(s, sub) <==> exists i :: OccursAt(s, sub, i)
    decreases |s|
  {
    if sub <= s {
      assert OccursAt(s, sub, 0);
    } else if s != [] {
      ContainsAt(s[1..], sub);
      if Contains(s[1..], sub) {
        var i :| OccursAt(s[1..], sub, i);
        assert s[i + 1..i + 1 + |sub|] == s[1..][i..i + |sub|];
        assert OccursAt(s, sub, i + 1);
      }
      if exists i :: OccursAt(s, sub, i) {
        var i :| OccursAt(s, sub, i);
        assert i != 0;
        assert s[1..][i - 1..i - 1 + |sub|] == s[i..i + |sub|];
        assert OccursAt(s[1..], sub, i - 1);
      }
    }
  }

  /** Every string contains each of its prefixes, so `p + rest` contains `p`. */
  lemma PrefixContained(p: string, rest: string)
    ensures Contains(p + rest, p)
  {
    assert p <= p + rest;
  }

  /** Replaces, left to right, every occurrence of the placeholder `ph` in
      `t` by `v`; the inserted text is not scanned again. This is what
      `template.format(pkg=v)` does for a template whose only braces are
      the `{pkg}` placeholder. */
  function Fill(t: string, ph: string, v: string): string
    requires ph != []
    decreases |t|
  {
    if t == [] then []
    else if ph <= t then v + Fill(t[|ph|..], ph, v)
    else [t[0]] + Fill(t[1..], ph, v)
  }

  /** A text without the placeholder's first character comes out unchanged. */
  lemma {:induction false} FillNoPlaceholder(t: string, ph: string, v: string)
    requires ph != [] && ph[0] !in t
    ensures Fill(t, ph, v) == t
    decreases |t|
  {
    if t != [] {
      assert !(ph <= t) by { assert t[0] != ph[0]; }
      FillNoPlaceholder(t[1..], ph, v);
    }
  }

  /** A placeholder after a brace-free prefix is replaced by the value, and
      filling continues after it. */
  lemma {:induction false} FillAfterPrefix(p: string, ph: string, rest: string, v: string)
    requires ph != [] && ph[0] !in p
    ensures Fill(p + ph + rest, ph, v) == p + v + Fill(rest, ph, v)
    decreases |p|
  {
    var t := p + ph + rest;
    if p == [] {
      assert t == ph + rest;
      assert ph <= t;
      assert t[|ph|..] == rest;
    } else {
      assert t[0] == p[0];
      assert !(ph <= t) by { assert t[0] != ph[0]; }
      assert t[1..] == p[1..] + ph + rest;
      FillAfterPrefix(p[1..], ph, rest, v);
      assert [p[0]] + p[1..] == p;
    }
  }

  /** The shape of every install template: `prefix{pkg}` with a brace-free
      prefix gives `prefix + value`. */
  lemma FillTemplate(p: string, v: string)
    requires '{' !in p
    ensures Fill(p + "{pkg}", "{pkg}", v) == p + v
  {
    FillAfterPrefix(p, "{pkg}", [], v);
    assert p + "{pkg}" + [] == p + "{pkg}";
  }
}
