/** HTML escaping of contact-form fields (api/contact.ts, escapeHtml).

    The source escapes by five successive global `replace` passes. This module
    models that chain literally, gives an independent per-character definition,
    proves the two equal (the ampersand pass comes first, so the entities that
    later passes insert are never escaped again), and proves what the escaped
    text can and cannot contain. */
module Escape {

  /** `s.replace(/c/g, r)`: every occurrence of the character `c` in `s` is replaced by `r`. */
  function ReplaceAll(s: string, c: char, r: string): string
  {
    if s == [] then [] else (if s[0] == c then r else [s[0]]) + ReplaceAll(s[1..], c, r)
  }

  /** Text without `c` is left unchanged. */
  lemma {:induction false} ReplaceAllAbsent(s: string, c: char, r: string)
    requires c !in s
    ensures ReplaceAll(s, c, r) == s
  {
    if s != [] {
      ReplaceAllAbsent(s[1..], c, r);
    }
  }

  /** When the replacement does not contain `c`, no `c` is left. */
  lemma {:induction false} ReplaceAllRemoves(s: string, c: char, r: string)
    requires c !in r
    ensures c !in ReplaceAll(s, c, r)
  {
    if s != [] {
      ReplaceAllRemoves(s[1..], c, r);
    }
  }

  /** Replacing in a concatenation is replacing in each part. */
  lemma {:induction false} ReplaceAllConcat(a: string, b: string, c: char, r: string)
    ensures ReplaceAll(a + b, c, r) == ReplaceAll(a, c, r) + ReplaceAll(b, c, r)
  {
    if a == [] {
      assert a + b == b;
    } else {
      assert (a + b)[1..] == a[1..] + b;
      ReplaceAllConcat(a[1..], b, c, r);
    }
  }

  /** The source's escapeHtml: five ordered passes, ampersand first. */
  function EscapeHtml(s: string): string
  {
    LaterPasses(ReplaceAll(s, '&', "&amp;"))
  }

  /** The four passes that follow the ampersand pass, in source order. */
  function LaterPasses(t: string): string
  {
    ReplaceAll(ReplaceAll(ReplaceAll(ReplaceAll(t, '<', "&lt;"), '>', "&gt;"), '"', "&quot;"), '\'', "&#039;")
  }

  lemma LaterPassesPlain(t: string)
    requires '<' !in t && '>' !in t && '"' !in t && '\'' !in t
    ensures LaterPasses(t) == t
  {
    ReplaceAllAbsent(t, '<', "&lt;");
    ReplaceAllAbsent(t, '>', "&gt;");
    ReplaceAllAbsent(t, '"', "&quot;");
    ReplaceAllAbsent(t, '\'', "&#039;");
  }

  /** The five characters the source escapes. */
  predicate Special(c: char)
  {
    c == '&' || c == '<' || c == '>' || c == '"' || c == '\''
  }

  /** The entity each special character becomes; every other character stands for itself. */
  function EscapeChar(c: char): (e: string)
    ensures Special(c) <==> e != [c]
    ensures |e| >= 1 && (Special(c) ==> e[0] == '&')
  {
    match c
    case '&' => "&amp;"
    case '<' => "&lt;"
    case '>' => "&gt;"
    case '"' => "&quot;"
    case '\'' => "&#039;"
    case _ => [c]
  }

  /** Reference definition: escape character by character, in one pass. */
  function EscapeEach(s: string): string
  {
    if s == [] then [] else EscapeChar(s[0]) + EscapeEach(s[1..])
  }

  lemma {:induction false} EscapeEachConcat(a: string, b: string)
    ensures EscapeEach(a + b) == EscapeEach(a) + EscapeEach(b)
  {
    if a == [] {
      assert a + b == b;
    } else {
      assert (a + b)[1..] == a[1..] + b;
      EscapeEachConcat(a[1..], b);
    }
  }

  lemma EscapeHtmlConcat(a: string, b: string)
    ensures EscapeHtml(a + b) == EscapeHtml(a) + EscapeHtml(b)
  {
    var a1, b1 := ReplaceAll(a, '&', "&amp;"), ReplaceAll(b, '&', "&amp;");
    ReplaceAllConcat(a, b, '&', "&amp;");
    var a2, b2 := ReplaceAll(a1, '<', "&lt;"), ReplaceAll(b1, '<', "&lt;");
    ReplaceAllConcat(a1, b1, '<', "&lt;");
    var a3, b3 := ReplaceAll(a2, '>', "&gt;"), ReplaceAll(b2, '>', "&gt;");
    ReplaceAllConcat(a2, b2, '>', "&gt;");
    var a4, b4 := ReplaceAll(a3, '"', "&quot;"), ReplaceAll(b3, '"', "&quot;");
    ReplaceAllConcat(a3, b3, '"', "&quot;");
    ReplaceAllConcat(a4, b4, '\'', "&#039;");
  }

  lemma ReplaceAllSingle(c: char, d: char, r: string)
    ensures ReplaceAll([c], d, r) == if c == d then r else [c]
  {
    assert [c][1..] == [];
  }

  /** On a single character the five passes agree with EscapeChar: an entity
      inserted by a later pass contains none of the characters that the passes
      after it look for, and the ampersand pass has already run. */
  lemma EscapeHtmlSingle(c: char)
    ensures EscapeHtml([c]) == EscapeChar(c)
  {
    ReplaceAllSingle(c, '&', "&amp;");
    var t1 := ReplaceAll([c], '&', "&amp;");
    if c == '&' {
      assert t1 == "&amp;";
      assert '<' !in t1 && '>' !in t1 && '"' !in t1 && '\'' !in t1;
      LaterPassesPlain(t1);
    } else {
      assert t1 == [c];
      ReplaceAllSingle(c, '<', "&lt;");
      var t2 := ReplaceAll(t1, '<', "&lt;");
      if c == '<' {
        assert t2 == "&lt;";
        assert '>' !in t2 && '"' !in t2 && '\'' !in t2;
        ReplaceAllAbsent(t2, '>', "&gt;");
        ReplaceAllAbsent(t2, '"', "&quot;");
        ReplaceAllAbsent(t2, '\'', "&#039;");
      } else {
        assert t2 == [c];
        ReplaceAllSingle(c, '>', "&gt;");
        var t3 := ReplaceAll(t2, '>', "&gt;");
        if c == '>' {
          assert t3 == "&gt;";
          assert '"' !in t3 && '\'' !in t3;
          ReplaceAllAbsent(t3, '"', "&quot;");
          ReplaceAllAbsent(t3, '\'', "&#039;");
        } else {
          assert t3 == [c];
          ReplaceAllSingle(c, '"', "&quot;");
          var t4 := ReplaceAll(t3, '"', "&quot;");
          if c == '"' {
            assert t4 == "&quot;";
            assert '\'' !in t4;
            ReplaceAllAbsent(t4, '\'', "&#039;");
          } else {
            assert t4 == [c];
            ReplaceAllSingle(c, '\'', "&#039;");
          }
        }
      }
    }
  }

  /** The chain of five replacements is a per-character substitution. */
  lemma {:induction false} EscapeHtmlIsPerCharacter(s: string)
    ensures EscapeHtml(s) == EscapeEach(s)
  {
    if s != [] {
      assert s == [s[0]] + s[1..];
      EscapeHtmlConcat([s[0]], s[1..]);
      EscapeHtmlSingle(s[0]);
      EscapeHtmlIsPerCharacter(s[1..]);
    }
  }

  /** Text with none of the five special characters is returned unchanged. */
  lemma {:induction false} EscapeHtmlPlainText(s: string)
    requires forall i :: 0 <= i < |s| ==> !Special(s[i])
    ensures EscapeHtml(s) == s
  {
    EscapeHtmlIsPerCharacter(s);
    EscapeEachPlain(s);
  }

  lemma {:induction false} EscapeEachPlain(s: string)
    requires forall i :: 0 <= i < |s| ==> !Special(s[i])
    ensures EscapeEach(s) == s
  {
    if s != [] {
      EscapeEachPlain(s[1..]);
    }
  }

  /** Number of special characters in `s`. */
  function SpecialCount(s: string): nat
  {
    if s == [] then 0 else (if Special(s[0]) then 1 else 0) + SpecialCount(s[1..])
  }

  /** Escaping never shortens the text: every special character grows by at
      least three, every other character is kept, so the length is unchanged
      exactly when there is nothing to escape. */
  lemma {:induction false} EscapeHtmlLength(s: string)
    ensures |EscapeHtml(s)| >= |s| + 3 * SpecialCount(s)
    ensures |EscapeHtml(s)| == |s| <==> SpecialCount(s) == 0
  {
    EscapeHtmlIsPerCharacter(s);
    EscapeEachLength(s);
  }

  lemma {:induction false} EscapeEachLength(s: string)
    ensures |EscapeEach(s)| >= |s| + 3 * SpecialCount(s)
    ensures SpecialCount(s) == 0 ==> EscapeEach(s) == s
  {
    if s != [] {
      EscapeEachLength(s[1..]);
    }
  }

  /** The entities escapeHtml emits. */
  predicate EntityPrefix(t: string)
  {
    "&amp;" <= t || "&lt;" <= t || "&gt;" <= t || "&quot;" <= t || "&#039;" <= t
  }

  /** Safe inside HTML text and attribute values: no quote characters, and every
      ampersand begins one of the five entities. Tags (`<`, `>`) are allowed, so
      this also describes the composed HTML body. */
  ghost predicate EntitySafe(t: string)
  {
    && '"' !in t && '\'' !in t
    && forall i :: 0 <= i < |t| && t[i] == '&' ==> EntityPrefix(t[i..])
  }

  /** Escaped text: entity-safe and free of angle brackets. */
  ghost predicate Escaped(t: string)
  {
    EntitySafe(t) && '<' !in t && '>' !in t
  }

  lemma EntitySafeConcat(a: string, b: string)
    requires EntitySafe(a) && EntitySafe(b)
    ensures EntitySafe(a + b)
  {
    var t := a + b;
    forall i | 0 <= i < |t| && t[i] == '&'
      ensures EntityPrefix(t[i..])
    {
      if i < |a| {
        assert a[i] == '&';
        var p := a[i..];
        assert t[i..] == p + b;
        assert EntityPrefix(p);
      } else {
        assert b[i - |a|] == '&';
        assert t[i..] == b[i - |a|..];
      }
    }
  }

  lemma EscapedConcat(a: string, b: string)
    requires Escaped(a) && Escaped(b)
    ensures Escaped(a + b)
  {
    EntitySafeConcat(a, b);
  }

  lemma EscapeCharEscaped(c: char)
    ensures Escaped(EscapeChar(c))
  {
    var e := EscapeChar(c);
    if Special(c) {
      assert EntityPrefix(e[0..]);
      forall i | 0 < i < |e| ensures e[i] != '&' { }
    }
  }

  lemma {:induction false} EscapeEachEscaped(s: string)
    ensures Escaped(EscapeEach(s))
  {
    if s != [] {
      EscapeCharEscaped(s[0]);
      EscapeEachEscaped(s[1..]);
      EscapedConcat(EscapeChar(s[0]), EscapeEach(s[1..]));
    }
  }

  /** The output of escapeHtml contains no `<`, `>`, `"` or `'`, and each of its
      ampersands starts one of the five entities. */
  lemma EscapeHtmlEscaped(s: string)
    ensures Escaped(EscapeHtml(s))
  {
    EscapeHtmlIsPerCharacter(s);
    EscapeEachEscaped(s);
  }

  /** Reference inverse of escapeHtml (not part of the source): decodes the five
      entities and copies every other character. */
  function Unescape(t: string): string
    decreases |t|
  {
    if t == [] then []
    else if "&amp;" <= t then "&" + Unescape(t[5..])
    else if "&lt;" <= t then "<" + Unescape(t[4..])
    else if "&gt;" <= t then ">" + Unescape(t[4..])
    else if "&quot;" <= t then "\"" + Unescape(t[6..])
    else if "&#039;" <= t then "'" + Unescape(t[6..])
    else [t[0]] + Unescape(t[1..])
  }

  lemma UnescapeStep(c: char, rest: string)
    ensures Unescape(EscapeChar(c) + rest) == [c] + Unescape(rest)
  {
    var t := EscapeChar(c) + rest;
    if c == '&' {
      assert "&amp;" <= t && t[5..] == rest;
    } else if c == '<' {
      assert !("&amp;" <= t) by { assert t[1] == 'l'; }
      assert "&lt;" <= t && t[4..] == rest;
    } else if c == '>' {
      assert !("&amp;" <= t) && !("&lt;" <= t) by { assert t[1] == 'g'; }
      assert "&gt;" <= t && t[4..] == rest;
    } else if c == '"' {
      assert !("&amp;" <= t) && !("&lt;" <= t) && !("&gt;" <= t) by { assert t[1] == 'q'; }
      assert "&quot;" <= t && t[6..] == rest;
    } else if c == '\'' {
      assert !("&amp;" <= t) && !("&lt;" <= t) && !("&gt;" <= t) && !("&quot;" <= t)
        by { assert t[1] == '#'; }
      assert "&#039;" <= t && t[6..] == rest;
    } else {
      assert t[0] == c && t[1..] == rest;
    }
  }

  lemma {:induction false} UnescapeEscapeEach(s: string)
    ensures Unescape(EscapeEach(s)) == s
  {
    if s != [] {
      UnescapeStep(s[0], EscapeEach(s[1..]));
      UnescapeEscapeEach(s[1..]);
    }
  }

  /** escapeHtml loses no information: decoding the entities gives back the input. */
  lemma UnescapeEscapeHtml(s: string)
    ensures Unescape(EscapeHtml(s)) == s
  {
    EscapeHtmlIsPerCharacter(s);
    UnescapeEscapeEach(s);
  }

  lemma {:induction false} SpecialCountConcat(a: string, b: string)
    ensures SpecialCount(a + b) == SpecialCount(a) + SpecialCount(b)
  {
    if a == [] {
      assert a + b == b;
    } else {
      assert (a + b)[1..] == a[1..] + b;
      SpecialCountConcat(a[1..], b);
    }
  }

  /** Every escaped special character leaves an ampersand behind. */
  lemma {:induction false} EscapeEachKeepsSpecials(s: string)
    ensures SpecialCount(EscapeEach(s)) >= SpecialCount(s)
  {
    if s != [] {
      EscapeEachKeepsSpecials(s[1..]);
      SpecialCountConcat(EscapeChar(s[0]), EscapeEach(s[1..]));
    }
  }

  /** escapeHtml is idempotent only on text it leaves alone: as soon as there is
      something to escape, escaping the result again escapes its ampersands. */
  lemma EscapeHtmlIdempotentOnlyOnPlainText(s: string)
    ensures EscapeHtml(EscapeHtml(s)) == EscapeHtml(s) <==> SpecialCount(s) == 0
  {
    var e := EscapeHtml(s);
    EscapeHtmlLength(s);
    EscapeHtmlLength(e);
    EscapeHtmlIsPerCharacter(s);
    if SpecialCount(s) == 0 {
      EscapeEachLength(s);
      assert e == s;
    } else {
      EscapeEachKeepsSpecials(s);
      assert |EscapeHtml(e)| > |e|;
    }
  }
}
