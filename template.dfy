/**
 * The two string operations the request builders apply to a contract
 * template: `String.prototype.replace` with a string pattern, which replaces
 * the FIRST occurrence only, and `replaceAll('\n', '\\n')`, which turns each
 * line break into the two characters backslash and `n`.
 */
module Template {

  /** `pat` occurs in `s` starting at index `i`. */
  predicate OccursAt(s: string, pat: string, i: int) {
    0 <= i && i + |pat| <= |s| && s[i..i + |pat|] == pat
  }

  predicate Occurs(s: string, pat: string) {
    exists i :: 0 <= i <= |s| && OccursAt(s, pat, i)
  }

  /**
   * `s.replace(pat, v)` with a literal replacement: the first occurrence of
   * `pat` becomes `v`; without an occurrence `s` is returned unchanged.
   */
  function Replace(s: string, pat: string, v: string): (r: string)
    decreases |s|
  {
    if |s| < |pat| then s
    else if s[..|pat|] == pat then v + s[|pat|..]
    else [s[0]] + Replace(s[1..], pat, v)
  }

  /** An occurrence in the tail of `s` is an occurrence in `s` one place further on. */
  lemma OccursInTail(s: string, pat: string, j: int)
    requires |s| > 0 && 0 <= j
    ensures OccursAt(s[1..], pat, j) <==> OccursAt(s, pat, j + 1)
  {
    if j + |pat| <= |s| - 1 {
      assert s[1..][j..j + |pat|] == s[j + 1..j + 1 + |pat|];
    }
  }

  /** `replace` changes the first occurrence of the pattern, and only that one. */
  lemma {:induction false} ReplaceFirst(s: string, pat: string, v: string, i: nat)
    requires OccursAt(s, pat, i)
    requires forall j :: 0 <= j < i ==> !OccursAt(s, pat, j)
    ensures Replace(s, pat, v) == s[..i] + v + s[i + |pat|..]
    decreases i
  {
    if i == 0 {
      assert s[..|pat|] == pat;
    } else {
      assert !OccursAt(s, pat, 0);
      var t := s[1..];
      OccursInTail(s, pat, i - 1);
      forall j | 0 <= j < i - 1
        ensures !OccursAt(t, pat, j)
      {
        OccursInTail(s, pat, j);
      }
      ReplaceFirst(t, pat, v, i - 1);
      calc {
        Replace(s, pat, v);
        [s[0]] + Replace(t, pat, v);
        [s[0]] + (t[..i - 1] + v + t[i - 1 + |pat|..]);
        { assert [s[0]] + t[..i - 1] == s[..i] && t[i - 1 + |pat|..] == s[i + |pat|..]; }
        s[..i] + v + s[i + |pat|..];
      }
    }
  }

  /** Without an occurrence of the pattern, `replace` returns the text unchanged. */
  lemma {:induction false} ReplaceAbsent(s: string, pat: string, v: string)
    requires !Occurs(s, pat)
    ensures Replace(s, pat, v) == s
    decreases |s|
  {
    if |s| >= |pat| {
      assert !OccursAt(s, pat, 0);
      var t := s[1..];
      assert !Occurs(t, pat) by {
        forall j | 0 <= j <= |t|
          ensures !OccursAt(t, pat, j)
        {
          OccursInTail(s, pat, j);
          assert !OccursAt(s, pat, j + 1);
        }
      }
      ReplaceAbsent(t, pat, v);
    }
  }

  /** A chain of `replace` calls, `s.replace(pats[0], vals[0]).replace(pats[1], vals[1])…`. */
  function ReplaceEach(s: string, pats: seq<string>, vals: seq<string>): string
    requires |pats| == |vals|
    decreases |pats|
  {
    if |pats| == 0 then s else ReplaceEach(Replace(s, pats[0], vals[0]), pats[1..], vals[1..])
  }

  /** Characters that cannot start `pat` are passed over unchanged. */
  lemma {:induction false} ReplaceSkips(a: string, b: string, pat: string, v: string)
    requires |pat| > 0 && pat[0] !in a
    ensures Replace(a + b, pat, v) == a + Replace(b, pat, v)
    decreases |a|
  {
    if |a| > 0 {
      var s := a + b;
      if |s| < |pat| {
        assert Replace(b, pat, v) == b;
      } else {
        assert s[..|pat|] != pat by { assert s[0] == a[0]; }
        assert Replace(s, pat, v) == [s[0]] + Replace(s[1..], pat, v);
        assert s[1..] == a[1..] + b;
        ReplaceSkips(a[1..], b, pat, v);
        assert a == [a[0]] + a[1..];
        assert Replace(s, pat, v) == [a[0]] + (a[1..] + Replace(b, pat, v));
      }
    } else {
      assert a + b == b;
    }
  }

  /** A placeholder at the very start is replaced there. */
  lemma ReplaceFront(pat: string, b: string, v: string)
    ensures Replace(pat + b, pat, v) == v + b
  {
    assert (pat + b)[..|pat|] == pat;
    assert (pat + b)[|pat|..] == b;
  }

  /**
   * Passing over another placeholder `q` that shares `pat`'s first character
   * but not its second, then replacing `pat` in place.
   */
  lemma ReplacePassesOver(q: string, a: string, pat: string, b: string, v: string)
    requires |q| >= 2 && |pat| >= 2 && q[0] == pat[0] && q[1] != pat[1]
    requires pat[0] !in q[1..] && pat[0] !in a
    ensures Replace(q + (a + (pat + b)), pat, v) == q + (a + (v + b))
  {
    var rest := a + (pat + b);
    var s := q + rest;
    assert s[..|pat|][1] == q[1];
    assert s[1..] == q[1..] + rest;
    calc {
      Replace(s, pat, v);
      [s[0]] + Replace(q[1..] + rest, pat, v);
      { ReplaceSkips(q[1..], rest, pat, v); }
      [s[0]] + (q[1..] + Replace(rest, pat, v));
      { ReplaceSkips(a, pat + b, pat, v); ReplaceFront(pat, b, v); }
      [s[0]] + (q[1..] + (a + (v + b)));
      { assert [q[0]] + q[1..] == q; }
      q + (a + (v + b));
    }
  }

  // ---------------------------------------------------------------- filled templates

  /**
   * A template cut at its placeholders, with `fillers[i]` put between
   * `texts[i]` and `texts[i + 1]`. With the placeholders themselves as
   * fillers this is the template's own text.
   */
  function Fill(texts: seq<string>, fillers: seq<string>): string
    requires |texts| == |fillers| + 1
    decreases |fillers|
  {
    if |fillers| == 0 then texts[0] else texts[0] + (fillers[0] + Fill(texts[1..], fillers[1..]))
  }

  /** No string of `ss` holds a `$`, the character every placeholder starts with. */
  predicate Plain(ss: seq<string>) {
    forall i :: 0 <= i < |ss| ==> '$' !in ss[i]
  }

  /** Filling `$`-free text with `$`-free fillers leaves no `$`. */
  lemma {:induction false} FillPlain(texts: seq<string>, fillers: seq<string>)
    requires |texts| == |fillers| + 1 && Plain(texts) && Plain(fillers)
    ensures '$' !in Fill(texts, fillers)
    decreases |fillers|
  {
    if |fillers| > 0 {
      assert '$' !in texts[0] && '$' !in fillers[0];
      FillPlain(texts[1..], fillers[1..]);
    } else {
      assert '$' !in texts[0];
    }
  }

  /**
   * Once the fillers before it are `$`-free, the placeholder `fillers[k]` is
   * the first occurrence of its own text, so `replace` puts `v` in its place.
   */
  lemma {:induction false} ReplaceAt(texts: seq<string>, fillers: seq<string>, k: nat, v: string)
    requires |texts| == |fillers| + 1 && Plain(texts) && k < |fillers| && Plain(fillers[..k])
    requires |fillers[k]| > 0 && fillers[k][0] == '$'
    ensures Replace(Fill(texts, fillers), fillers[k], v) == Fill(texts, fillers[k := v])
    decreases k
  {
    var pat := fillers[k];
    assert '$' !in texts[0];
    if k == 0 {
      var tail := Fill(texts[1..], fillers[1..]);
      assert fillers[k := v][1..] == fillers[1..];
      ReplaceFront(pat, tail, v);
      ReplaceSkips(texts[0], pat + tail, pat, v);
    } else {
      assert '$' !in fillers[..k][0];
      assert fillers[1..][..k - 1] == fillers[..k][1..];
      assert fillers[k := v][1..] == fillers[1..][k - 1 := v];
      ReplaceAt(texts[1..], fillers[1..], k - 1, v);
      var tail := Fill(texts[1..], fillers[1..]);
      ReplaceSkips(fillers[0], tail, pat, v);
      ReplaceSkips(texts[0], fillers[0] + tail, pat, v);
    }
  }

  /**
   * The placeholder `fillers[k + 1]` can be replaced while `fillers[k]` is
   * still in place when the two differ in the second character already.
   */
  lemma {:induction false} ReplaceAfter(texts: seq<string>, fillers: seq<string>, k: nat, v: string)
    requires |texts| == |fillers| + 1 && Plain(texts) && k + 1 < |fillers| && Plain(fillers[..k])
    requires |fillers[k]| >= 2 && |fillers[k + 1]| >= 2
    requires fillers[k][0] == '$' && fillers[k + 1][0] == '$' && fillers[k][1] != fillers[k + 1][1]
    requires '$' !in fillers[k][1..]
    ensures Replace(Fill(texts, fillers), fillers[k + 1], v) == Fill(texts, fillers[k + 1 := v])
    decreases k
  {
    var q, pat := fillers[k], fillers[k + 1];
    assert '$' !in texts[0];
    if k == 0 {
      var tail := Fill(texts[2..], fillers[2..]);
      assert '$' !in texts[1];
      assert Fill(texts[1..], fillers[1..]) == texts[1] + (pat + tail) by {
        assert texts[1..][1..] == texts[2..] && fillers[1..][1..] == fillers[2..];
      }
      assert Fill(texts[1..], fillers[k + 1 := v][1..]) == texts[1] + (v + tail) by {
        assert texts[1..][1..] == texts[2..] && fillers[k + 1 := v][1..][1..] == fillers[2..];
      }
      ReplacePassesOver(q, texts[1], pat, tail, v);
      ReplaceSkips(texts[0], q + (texts[1] + (pat + tail)), pat, v);
    } else {
      assert '$' !in fillers[..k][0];
      assert fillers[1..][..k - 1] == fillers[..k][1..];
      assert fillers[k + 1 := v][1..] == fillers[1..][k := v];
      ReplaceAfter(texts[1..], fillers[1..], k - 1, v);
      var tail := Fill(texts[1..], fillers[1..]);
      ReplaceSkips(fillers[0], tail, pat, v);
      ReplaceSkips(texts[0], fillers[0] + tail, pat, v);
    }
  }

  /** Text in which the first character of `pat` does not occur has no occurrence of `pat`. */
  lemma NoOccurrence(s: string, pat: string)
    requires |pat| > 0 && pat[0] !in s
    ensures !Occurs(s, pat)
  {
  }

  /**
   * `s.replaceAll('\n', '\\n')`: every line break becomes a backslash
   * followed by `n`; every other character is kept.
   */
  function EscapeNewlines(s: string): (r: string)
    ensures '\n' !in r
    ensures forall c :: c in r ==> c in s || c == '\\' || c == 'n'
    ensures '\n' !in s ==> r == s
    decreases |s|
  {
    if s == [] then []
    else (if s[0] == '\n' then "\\n" else [s[0]]) + EscapeNewlines(s[1..])
  }

  /**
   * Replacing the placeholders in the order they appear in the text, once the
   * first `k` are filled, fills the rest.
   */
  lemma {:induction false} ReplaceRestInOrder(texts: seq<string>, pats: seq<string>, fillers: seq<string>, k: nat)
    requires |texts| == |pats| + 1 && |pats| == |fillers| && k <= |pats|
    requires Plain(texts) && Plain(fillers) && Placeholders(pats)
    ensures ReplaceEach(Fill(texts, fillers[..k] + pats[k..]), pats[k..], fillers[k..]) == Fill(texts, fillers)
    decreases |pats| - k
  {
    var cur := fillers[..k] + pats[k..];
    if k == |pats| {
      assert cur == fillers;
    } else {
      assert cur[..k] == fillers[..k] && cur[k] == pats[k];
      assert Plain(cur[..k]);
      ReplaceAt(texts, cur, k, fillers[k]);
      assert cur[k := fillers[k]] == fillers[..k + 1] + pats[k + 1..];
      assert pats[k..][1..] == pats[k + 1..] && fillers[k..][1..] == fillers[k + 1..];
      ReplaceRestInOrder(texts, pats, fillers, k + 1);
    }
  }

  /**
   * Replacing the placeholders in the order they appear in the text puts each
   * filler in its placeholder's place.
   */
  lemma ReplaceInOrder(texts: seq<string>, pats: seq<string>, fillers: seq<string>)
    requires |texts| == |pats| + 1 && |pats| == |fillers|
    requires Plain(texts) && Plain(fillers) && Placeholders(pats)
    ensures ReplaceEach(Fill(texts, pats), pats, fillers) == Fill(texts, fillers)
  {
    ReplaceRestInOrder(texts, pats, fillers, 0);
    assert fillers[..0] + pats[0..] == pats;
  }

  /** Escaping the newlines of a `$`-free filling leaves no `$`. */
  lemma EscapedFillPlain(texts: seq<string>, fillers: seq<string>)
    requires |texts| == |fillers| + 1 && Plain(texts) && Plain(fillers)
    ensures '$' !in EscapeNewlines(Fill(texts, fillers))
  {
    FillPlain(texts, fillers);
  }

  /** Every placeholder starts with `$`. */
  predicate Placeholders(pats: seq<string>) {
    forall i :: 0 <= i < |pats| ==> |pats[i]| > 0 && pats[i][0] == '$'
  }

  /** Text without a `$` holds none of the placeholders. */
  lemma NoPlaceholderLeft(s: string, pats: seq<string>)
    requires '$' !in s && Placeholders(pats)
    ensures forall i :: 0 <= i < |pats| ==> !Occurs(s, pats[i])
  {
    forall i | 0 <= i < |pats|
      ensures !Occurs(s, pats[i])
    {
      NoOccurrence(s, pats[i]);
    }
  }
}
