/** JSON Pointer escaping of state keys (agui/stream.go), against section 4 of RFC 6901. */
module Pointer {

  /** strings.ReplaceAll: non-overlapping occurrences from the left. */
  function ReplaceAll(s: string, target: string, sub: string): string
    requires target != ""
    decreases |s|
  {
    if |s| < |target| then s
    else if s[..|target|] == target then sub + ReplaceAll(s[|target|..], target, sub)
    else [s[0]] + ReplaceAll(s[1..], target, sub)
  }

  /** The source's two passes. */
  function Escape(key: string): string {
    ReplaceAll(ReplaceAll(key, "~", "~0"), "/", "~1")
  }

  /** Section 4 of RFC 6901: "~1" first, then "~0". */
  function Unescape(token: string): string {
    ReplaceAll(ReplaceAll(token, "~1", "/"), "~0", "~")
  }

  function EscapeChar(c: char): string {
    if c == '~' then "~0" else if c == '/' then "~1" else [c]
  }

  /** One pass, character by character. */
  function EscapeOnePass(key: string): string {
    if key == "" then "" else EscapeChar(key[0]) + EscapeOnePass(key[1..])
  }

  /** Tildes escaped, slashes left alone: what lies between the two passes. */
  function TildesOnly(key: string): string {
    if key == "" then "" else (if key[0] == '~' then "~0" else [key[0]]) + TildesOnly(key[1..])
  }

  lemma ReplaceOther(c: char, s: string, target: string, sub: string)
    requires target != "" && c != target[0]
    ensures ReplaceAll([c] + s, target, sub) == [c] + ReplaceAll(s, target, sub)
  {
    assert ([c] + s)[1..] == s;
  }

  lemma ReplaceOne(c: char, s: string, sub: string)
    ensures ReplaceAll([c] + s, [c], sub) == sub + ReplaceAll(s, [c], sub)
  {
    assert ([c] + s)[1..] == s && ([c] + s)[..1] == [c];
  }

  lemma ReplaceTwo(s: string, target: string, sub: string)
    requires |target| == 2
    ensures ReplaceAll(target + s, target, sub) == sub + ReplaceAll(s, target, sub)
  {
    assert (target + s)[2..] == s && (target + s)[..2] == target;
  }

  lemma {:induction false} FirstPass(key: string)
    ensures ReplaceAll(key, "~", "~0") == TildesOnly(key)
  {
    if key != "" {
      FirstPass(key[1..]);
      assert key == [key[0]] + key[1..];
      if key[0] == '~' {
        ReplaceOne('~', key[1..], "~0");
      } else {
        ReplaceOther(key[0], key[1..], "~", "~0");
      }
    }
  }

  lemma SecondPassStep(c: char, rest: string)
    ensures ReplaceAll((if c == '~' then "~0" else [c]) + rest, "/", "~1") == EscapeChar(c) + ReplaceAll(rest, "/", "~1")
  {
    if c == '~' {
      ReplaceOther('0', rest, "/", "~1");
      ReplaceOther('~', ['0'] + rest, "/", "~1");
      assert "~0" + rest == ['~'] + (['0'] + rest);
      var done := ReplaceAll(rest, "/", "~1");
      assert ['~'] + (['0'] + done) == "~0" + done;
    } else if c == '/' {
      ReplaceOne('/', rest, "~1");
    } else {
      ReplaceOther(c, rest, "/", "~1");
    }
  }

  lemma {:induction false} SecondPass(key: string)
    ensures ReplaceAll(TildesOnly(key), "/", "~1") == EscapeOnePass(key)
  {
    if key != "" {
      SecondPass(key[1..]);
      SecondPassStep(key[0], TildesOnly(key[1..]));
    }
  }

  /** The two passes escape each character on its own. */
  lemma EscapeIsOnePass(key: string)
    ensures Escape(key) == EscapeOnePass(key)
  {
    FirstPass(key);
    SecondPass(key);
  }

  /** A legal reference token: no "/", and every "~" starts "~0" or "~1". */
  predicate LegalToken(s: string) {
    forall i :: 0 <= i < |s| ==> s[i] != '/' && (s[i] == '~' ==> i + 1 < |s| && s[i + 1] in "01")
  }

  lemma LegalConcat(head: string, rest: string)
    requires LegalToken(head) && LegalToken(rest)
    ensures LegalToken(head + rest)
  {
    var s := head + rest;
    forall i | 0 <= i < |s|
      ensures s[i] != '/' && (s[i] == '~' ==> i + 1 < |s| && s[i + 1] in "01")
    {
      if i < |head| {
        assert s[i] == head[i];
        if s[i] == '~' {
          assert s[i + 1] == head[i + 1];
        }
      } else {
        var k := i - |head|;
        assert s[i] == rest[k];
        if s[i] == '~' {
          assert s[i + 1] == rest[k + 1];
        }
      }
    }
  }

  lemma {:induction false} OnePassIsLegal(key: string)
    ensures LegalToken(EscapeOnePass(key))
  {
    if key != "" {
      OnePassIsLegal(key[1..]);
      CharIsLegal(key[0]);
      LegalConcat(EscapeChar(key[0]), EscapeOnePass(key[1..]));
    }
  }

  lemma CharIsLegal(c: char)
    ensures LegalToken(EscapeChar(c))
  {
  }

  lemma EscapeIsLegal(key: string)
    ensures LegalToken(Escape(key))
  {
    EscapeIsOnePass(key);
    OnePassIsLegal(key);
  }

  lemma SlashesBackStep(c: char, rest: string)
    ensures ReplaceAll(EscapeChar(c) + rest, "~1", "/")
         == (if c == '~' then "~0" else [c]) + ReplaceAll(rest, "~1", "/")
  {
    if c == '~' {
      var s := "~0" + rest;
      assert s[..2] == "~0" && s[1..] == ['0'] + rest;
      ReplaceOther('0', rest, "~1", "/");
    } else if c == '/' {
      ReplaceTwo(rest, "~1", "/");
    } else {
      ReplaceOther(c, rest, "~1", "/");
    }
  }

  lemma {:induction false} SlashesBack(key: string)
    ensures ReplaceAll(EscapeOnePass(key), "~1", "/") == TildesOnly(key)
  {
    if key != "" {
      SlashesBack(key[1..]);
      SlashesBackStep(key[0], EscapeOnePass(key[1..]));
    }
  }

  lemma {:induction false} TildesBack(key: string)
    ensures ReplaceAll(TildesOnly(key), "~0", "~") == key
  {
    if key != "" {
      var rest := TildesOnly(key[1..]);
      TildesBack(key[1..]);
      if key[0] == '~' {
        ReplaceTwo(rest, "~0", "~");
      } else {
        ReplaceOther(key[0], rest, "~0", "~");
      }
    }
  }

  /** The standard's decoding undoes the escape. */
  lemma UnescapeEscape(key: string)
    ensures Unescape(Escape(key)) == key
  {
    EscapeIsOnePass(key);
    SlashesBack(key);
    TildesBack(key);
  }

  /** Distinct keys get distinct tokens. */
  lemma EscapeIsInjective(a: string, b: string)
    requires Escape(a) == Escape(b)
    ensures a == b
  {
    UnescapeEscape(a);
    UnescapeEscape(b);
  }

  /** The passes do not commute: slashes first would garble "/". */
  lemma PassOrderMatters()
    ensures ReplaceAll(ReplaceAll("/", "/", "~1"), "~", "~0") != Escape("/")
  {
    EscapeIsOnePass("/");
    ReplaceOne('/', "", "~1");
    assert ['/'] + "" == "/" && "~1" + "" == "~1";
    ReplaceOne('~', "1", "~0");
    assert ['~'] + "1" == "~1";
  }
}
