/** The two HTML escapers: four replacements one after the other
    (docs/design/prototypes/managed-session-context-rail.js:118-124) and one replacement per
    character (apps/multi-terminal/public/app.js:2). */
module EscapeHtml {
  import opened Sequences

  /** `s.replace(/c/g, entity)` for a single character. */
  function ReplaceAll(s: string, c: char, entity: string): string {
    if s == "" then "" else (if s[0] == c then entity else [s[0]]) + ReplaceAll(s[1..], c, entity)
  }

  /** The four replacements, ampersand first. */
  function FourPass(s: string): string {
    ReplaceAll(ReplaceAll(ReplaceAll(ReplaceAll(s, '&', "&amp;"), '<', "&lt;"), '>', "&gt;"), '"', "&quot;")
  }

  function FourEntity(c: char): string {
    if c == '&' then "&amp;" else if c == '<' then "&lt;" else if c == '>' then "&gt;"
        else if c == '"' then "&quot;" else [c]
  }

  function FiveEntity(c: char): string {
    if c == '\'' then "&#39;" else FourEntity(c)
  }

  function Each(s: string, f: char -> string): string {
    if s == "" then "" else f(s[0]) + Each(s[1..], f)
  }

  /** The escaper of the portfolio page, which also escapes the apostrophe. */
  function OnePass(s: string): string {
    Each(s, FiveEntity)
  }

  lemma {:induction false} ReplaceConcat(a: string, b: string, c: char, entity: string)
    ensures ReplaceAll(a + b, c, entity) == ReplaceAll(a, c, entity) + ReplaceAll(b, c, entity)
  {
    if a == "" {
      assert a + b == b;
    } else {
      assert (a + b)[1..] == a[1..] + b;
      ReplaceConcat(a[1..], b, c, entity);
    }
  }

  lemma {:induction false} ReplaceAbsent(s: string, c: char, entity: string)
    requires c !in s
    ensures ReplaceAll(s, c, entity) == s
  {
    if s != "" {
      ReplaceAbsent(s[1..], c, entity);
    }
  }

  lemma {:induction false} ReplaceOne(c: char, x: char, entity: string)
    ensures ReplaceAll([x], c, entity) == if x == c then entity else [x]
  {
    assert [x][1..] == "";
    assert ReplaceAll("", c, entity) == "";
  }

  lemma {:induction false} FourPassConcat(a: string, b: string)
    ensures FourPass(a + b) == FourPass(a) + FourPass(b)
  {
    hide ReplaceAll;
    var a1, b1 := ReplaceAll(a, '&', "&amp;"), ReplaceAll(b, '&', "&amp;");
    var a2, b2 := ReplaceAll(a1, '<', "&lt;"), ReplaceAll(b1, '<', "&lt;");
    var a3, b3 := ReplaceAll(a2, '>', "&gt;"), ReplaceAll(b2, '>', "&gt;");
    ReplaceConcat(a, b, '&', "&amp;");
    ReplaceConcat(a1, b1, '<', "&lt;");
    ReplaceConcat(a2, b2, '>', "&gt;");
    ReplaceConcat(a3, b3, '"', "&quot;");
  }

  /** One character through the four replacements: later ones leave earlier entities alone. */
  lemma {:induction false} FourPassOne(x: char)
    ensures FourPass([x]) == FourEntity(x)
  {
    hide ReplaceAll;
    ReplaceOne('&', x, "&amp;");
    if x == '&' {
      ReplaceAbsent("&amp;", '<', "&lt;");
      ReplaceAbsent("&amp;", '>', "&gt;");
      ReplaceAbsent("&amp;", '"', "&quot;");
    } else {
      ReplaceOne('<', x, "&lt;");
      if x == '<' {
        ReplaceAbsent("&lt;", '>', "&gt;");
        ReplaceAbsent("&lt;", '"', "&quot;");
      } else {
        ReplaceOne('>', x, "&gt;");
        if x == '>' {
          ReplaceAbsent("&gt;", '"', "&quot;");
        } else {
          ReplaceOne('"', x, "&quot;");
        }
      }
    }
  }

  /** Main result: on every string the four sequential replacements are one substitution per
      character. */
  lemma {:induction false} FourPassIsPerCharacter(s: string)
    ensures FourPass(s) == Each(s, FourEntity)
  {
    if s != "" {
      FourPassIsPerCharacter(s[1..]);
      assert s == [s[0]] + s[1..];
      FourPassConcat([s[0]], s[1..]);
      FourPassOne(s[0]);
    }
  }

  lemma {:induction false} EachSame(s: string)
    ensures Each(s, FourEntity) == Each(s, FiveEntity) <==> '\'' !in s
  {
    if s != "" {
      EachSame(s[1..]);
      var four, five := Each(s[1..], FourEntity), Each(s[1..], FiveEntity);
      if s[0] == '\'' {
        assert (FourEntity(s[0]) + four)[0] == '\'' && (FiveEntity(s[0]) + five)[0] == '&';
      } else {
        var entity := FourEntity(s[0]);
        assert (entity + four)[|entity|..] == four && (entity + five)[|entity|..] == five;
        assert '\'' in s <==> '\'' in s[1..] by {
          assert s == [s[0]] + s[1..];
        }
      }
    }
  }

  /** The two escapers agree on a string exactly when it has no apostrophe. */
  lemma {:induction false} EscapersAgree(s: string)
    ensures FourPass(s) == OnePass(s) <==> '\'' !in s
  {
    FourPassIsPerCharacter(s);
    EachSame(s);
  }

  // ------------------------------------------------------------- decoding

  predicate StartsWith(s: string, p: string) {
    p <= s
  }

  /** Reading the five entities back; anything else stands for itself. */
  function Decode(s: string): string {
    if s == "" then ""
    else if StartsWith(s, "&amp;") then "&" + Decode(s[5..])
    else if StartsWith(s, "&lt;") then "<" + Decode(s[4..])
    else if StartsWith(s, "&gt;") then ">" + Decode(s[4..])
    else if StartsWith(s, "&quot;") then "\"" + Decode(s[6..])
    else if StartsWith(s, "&#39;") then "'" + Decode(s[5..])
    else [s[0]] + Decode(s[1..])
  }

  /** An entity at the front decodes to its character, whatever follows. */
  lemma {:induction false} DecodeEntity(c: char, rest: string)
    ensures Decode(FiveEntity(c) + rest) == [c] + Decode(rest)
    ensures c != '\'' ==> Decode(FourEntity(c) + rest) == [c] + Decode(rest)
  {
    var s := FiveEntity(c) + rest;
    assert s[..|FiveEntity(c)|] == FiveEntity(c) && s[|FiveEntity(c)|..] == rest;
    if c != '&' && c != '<' && c != '>' && c != '"' && c != '\'' {
      assert s[0] == c && s[1..] == rest;
      forall p: string | p in {"&amp;", "&lt;", "&gt;", "&quot;", "&#39;"} ensures !StartsWith(s, p) {
        assert p[0] == '&';
      }
    } else {
      assert s[1] == FiveEntity(c)[1] && s[2] == FiveEntity(c)[2];
    }
  }

  /** Decoding undoes the five-entity escaper, so escaping loses nothing. */
  lemma {:induction false} DecodeOnePass(s: string)
    ensures Decode(OnePass(s)) == s
  {
    if s != "" {
      DecodeOnePass(s[1..]);
      DecodeEntity(s[0], OnePass(s[1..]));
    }
  }

  lemma {:induction false} DecodePlain(c: char, rest: string)
    requires c != '&'
    ensures Decode([c] + rest) == [c] + Decode(rest)
  {
    var s := [c] + rest;
    assert s[0] == c && s[1..] == rest;
    forall p: string | p in {"&amp;", "&lt;", "&gt;", "&quot;", "&#39;"} ensures !StartsWith(s, p) {
      assert p[0] == '&';
    }
  }

  /** And it undoes the four replacements on every string, apostrophes included. */
  lemma {:induction false} DecodeFourPass(s: string)
    ensures Decode(FourPass(s)) == s
  {
    FourPassIsPerCharacter(s);
    if s != "" {
      DecodeFourPass(s[1..]);
      FourPassIsPerCharacter(s[1..]);
      if s[0] == '\'' {
        DecodePlain(s[0], Each(s[1..], FourEntity));
      } else {
        DecodeEntity(s[0], Each(s[1..], FourEntity));
      }
    }
  }

  /** Escaping is injective. */
  lemma {:induction false} EscapeInjective(s: string, t: string)
    requires FourPass(s) == FourPass(t) || OnePass(s) == OnePass(t)
    ensures s == t
  {
    DecodeFourPass(s);
    DecodeFourPass(t);
    DecodeOnePass(s);
    DecodeOnePass(t);
  }

  // ------------------------------------------------------------- what is left

  predicate StartsEntity(s: string) {
    StartsWith(s, "&amp;") || StartsWith(s, "&lt;") || StartsWith(s, "&gt;") || StartsWith(s, "&quot;")
        || StartsWith(s, "&#39;")
  }

  /** No raw angle bracket or quote, and every ampersand starts an entity. */
  ghost predicate Inert(s: string) {
    forall i :: 0 <= i < |s| ==>
      && s[i] != '<' && s[i] != '>' && s[i] != '"'
      && (s[i] == '&' ==> StartsEntity(s[i..]))
  }

  lemma {:induction false} InertEntity(c: char, rest: string)
    requires Inert(rest)
    ensures Inert(FiveEntity(c) + rest) && Inert(FourEntity(c) + rest)
  {
    InertFront(FiveEntity(c), rest);
    InertFront(FourEntity(c), rest);
  }

  lemma {:induction false} InertFront(entity: string, rest: string)
    requires Inert(rest) && entity != ""
    requires forall i :: 0 <= i < |entity| ==>
            entity[i] != '<' && entity[i] != '>' && entity[i] != '"' && (i > 0 ==> entity[i] != '&')
    requires entity[0] == '&' ==> entity in {"&amp;", "&lt;", "&gt;", "&quot;", "&#39;"}
    ensures Inert(entity + rest)
  {
    var s := entity + rest;
    forall i | 0 <= i < |s|
      ensures s[i] != '<' && s[i] != '>' && s[i] != '"' && (s[i] == '&' ==> StartsEntity(s[i..]))
    {
      if i == 0 && entity[0] == '&' {
        assert s[0..] == s && entity <= s;
      } else if i >= |entity| {
        assert s[i] == rest[i - |entity|] && s[i..] == rest[i - |entity|..];
      } else {
        assert s[i] == entity[i];
      }
    }
  }

  /** Escaped text holds none of the raw characters but the ampersands of its own entities. */
  lemma {:induction false} EscapedIsInert(s: string)
    ensures Inert(FourPass(s)) && Inert(OnePass(s))
    ensures '\'' !in OnePass(s)
  {
    FourPassIsPerCharacter(s);
    if s != "" {
      EscapedIsInert(s[1..]);
      FourPassIsPerCharacter(s[1..]);
      InertEntity(s[0], Each(s[1..], FourEntity));
      InertEntity(s[0], Each(s[1..], FiveEntity));
    }
  }

  /** What the escapers put for each character. */
  lemma {:induction false} EntityTable(c: char)
    ensures FourPass("&") == OnePass("&") == "&amp;" && FourPass("<") == OnePass("<") == "&lt;"
    ensures FourPass(">") == OnePass(">") == "&gt;" && FourPass("\"") == OnePass("\"") == "&quot;"
    ensures FourPass("'") == "'" && OnePass("'") == "&#39;"
    ensures c != '&' && c != '<' && c != '>' && c != '"' && c != '\'' ==> FourPass([c]) == OnePass([c]) == [c]
  {
    FourPassOne('&');
    FourPassOne('<');
    FourPassOne('>');
    FourPassOne('"');
    FourPassOne('\'');
    FourPassOne(c);
    OneCharacter('&');
    OneCharacter('<');
    OneCharacter('>');
    OneCharacter('"');
    OneCharacter('\'');
    OneCharacter(c);
    hide FourPass, OnePass;
  }

  lemma {:induction false} OneCharacter(c: char)
    ensures OnePass([c]) == FiveEntity(c)
  {
    assert [c][1..] == [];
    assert Each([], FiveEntity) == "";
  }
}
