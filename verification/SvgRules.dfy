/** What the scrubber lets through, in plain terms: names after an optional namespace, the words on
    its lists and the texts it looks for (apps/server/src/workers/cad-preview.py:25-70). */
module SvgRules {
  import opened Sequences
  import opened SvgScrub

  // ------------------------------------------------------------- names and texts

  /** A name in brace notation: `x` itself, or `x` after some namespace. */
  ghost predicate Named(name: string, x: string) {
    '}' !in x && (name == x || exists ns :: name == ns + "}" + x)
  }

  ghost predicate Occurs(text: string, part: string) {
    exists before, after :: text == before + part + after
  }

  ghost predicate Begins(text: string, part: string) {
    exists after :: text == part + after
  }

  lemma {:induction false} LocalOf(name: string, x: string)
    requires Named(name, x)
    ensures Local(name) == x
  {
    if name == x {
      LocalPlain(x);
    } else {
      var ns :| name == ns + "}" + x;
      LocalAfter(ns, x);
    }
  }

  lemma {:induction false} LocalPlain(x: string)
    requires '}' !in x
    ensures Local(x) == x
  {
    if x != "" {
      LocalPlain(x[..|x| - 1]);
    }
  }

  lemma {:induction false} LocalAfter(ns: string, x: string)
    requires '}' !in x
    ensures Local(ns + "}" + x) == x
  {
    var name := ns + "}" + x;
    if x != "" {
      assert name[..|name| - 1] == ns + "}" + x[..|x| - 1];
      assert name[|name| - 1] == x[|x| - 1];
      LocalAfter(ns, x[..|x| - 1]);
    }
  }

  /** Every name is that of one word. */
  lemma {:induction false} LocalNamed(name: string)
    ensures Named(name, Local(name))
  {
    if name != "" {
      var front, last := name[..|name| - 1], name[|name| - 1];
      assert name == front + [last];
      if last == '}' {
        assert name == front + "}" + "";
      } else {
        LocalNamed(front);
        if front == Local(front) {
          assert Local(name) == name;
        } else {
          var ns :| front == ns + "}" + Local(front);
          assert name == ns + "}" + Local(name);
        }
      }
    }
  }

  lemma {:induction false} ContainsOccurs(text: string, part: string)
    ensures Contains(text, part) <==> Occurs(text, part)
  {
    if Contains(text, part) {
      var i :| 0 <= i <= |text| && part <= text[i..];
      assert text == text[..i] + part + text[i + |part|..];
    }
    if Occurs(text, part) {
      var before, after :| text == before + part + after;
      assert text[|before|..] == part + after;
    }
  }

  lemma {:induction false} PrefixBegins(text: string, part: string)
    ensures part <= text <==> Begins(text, part)
  {
    if part <= text {
      assert text == part + text[|part|..];
    }
  }

  // ------------------------------------------------------------- the rules

  ghost predicate TagRule(tag: string) {
    exists x :: Named(tag, x) && TagWord(x)
  }

  predicate TagWord(x: string) {
    || x == "svg" || x == "g" || x == "defs" || x == "style" || x == "path" || x == "rect" || x == "line"
    || x == "polyline" || x == "polygon" || x == "circle" || x == "ellipse" || x == "text" || x == "tspan"
    || x == "use" || x == "clipPath"
  }

  predicate AttrWord(x: string) {
    || x == "id" || x == "class" || x == "d" || x == "transform" || x == "viewBox" || x == "width" || x == "height"
    || x == "x" || x == "y" || x == "x1" || x == "y1" || x == "x2" || x == "y2" || x == "cx" || x == "cy" || x == "r"
    || x == "rx" || x == "ry" || x == "points" || x == "fill" || x == "stroke" || x == "stroke-width"
    || x == "stroke-opacity" || x == "fill-opacity" || x == "clip-path" || x == "preserveAspectRatio" || x == "href"
  }

  /** An attribute of an allowed name that is no event handler, whose value loads nothing from
      outside. */
  ghost predicate AttrRule(lower: Lower, a: Attr) {
    && (exists x :: Named(a.key, x) && AttrWord(x) && !Begins(lower(x), "on"))
    && (Named(a.key, "href") ==> Begins(a.value, "#"))
    && !Occurs(lower(a.value), "javascript:") && !Occurs(lower(a.value), "data:") && !Occurs(lower(a.value), "http:")
    && !Occurs(lower(a.value), "https:") && !Occurs(lower(a.value), "url(")
  }

  /** The text of a style sheet that loads nothing from outside. */
  ghost predicate StyleRule(lower: Lower, text: Option<string>) {
    var style := lower(if text.Some? then text.value else "");
    !Occurs(style, "@import") && !Occurs(style, "url(") && !Occurs(style, "javascript:")
  }

  lemma {:induction false} TagRuleIs(tag: string)
    ensures KeepsTag(tag) <==> TagRule(tag)
  {
    LocalNamed(tag);
    forall x | Named(tag, x) ensures x == Local(tag) {
      LocalOf(tag, x);
    }
    hide Named, Local;
    assert IsAllowedTag(Local(tag)) <==> TagWord(Local(tag));
  }

  lemma {:induction false} NameRuleIs(lower: Lower, key: string)
    ensures (exists x :: Named(key, x) && AttrWord(x) && !Begins(lower(x), "on"))
       <==> IsAllowedAttr(Local(key)) && !("on" <= lower(Local(key)))
    ensures Named(key, "href") <==> Local(key) == "href"
  {
    LocalNamed(key);
    forall x | Named(key, x) ensures x == Local(key) {
      LocalOf(key, x);
    }
    PrefixBegins(lower(Local(key)), "on");
    AttrWordIs(Local(key));
    hide Named, Local, Begins, AttrWord, IsAllowedAttr;
  }

  lemma {:induction false} ValueRuleIs(value: string)
    ensures Contains(value, "javascript:") <==> Occurs(value, "javascript:")
    ensures Contains(value, "data:") <==> Occurs(value, "data:")
    ensures Contains(value, "http:") <==> Occurs(value, "http:")
    ensures Contains(value, "https:") <==> Occurs(value, "https:")
    ensures Contains(value, "url(") <==> Occurs(value, "url(")
  {
    hide Contains, Occurs;
    ContainsOccurs(value, "javascript:");
    ContainsOccurs(value, "data:");
    ContainsOccurs(value, "http:");
    ContainsOccurs(value, "https:");
    ContainsOccurs(value, "url(");
  }

  lemma {:induction false} AttrRuleIs(lower: Lower, a: Attr)
    ensures KeepsAttr(lower, a.key, a.value) <==> AttrRule(lower, a)
  {
    hide Named, Local, Contains, Occurs, Begins, AttrWord, IsAllowedAttr;
    NameRuleIs(lower, a.key);
    ValueRuleIs(lower(a.value));
    PrefixBegins(a.value, "#");
  }

  lemma {:induction false} AttrWordIs(x: string)
    ensures IsAllowedAttr(x) <==> AttrWord(x)
  {
  }

  lemma {:induction false} StyleRuleIs(lower: Lower, tag: string, text: Option<string>)
    ensures DropsText(lower, tag, text) <==> Named(tag, "style") && !StyleRule(lower, text)
  {
    LocalNamed(tag);
    if Named(tag, "style") {
      LocalOf(tag, "style");
    }
    var style := lower(if text.Some? then text.value else "");
    ContainsOccurs(style, "@import");
    ContainsOccurs(style, "url(");
    ContainsOccurs(style, "javascript:");
    hide Named, Local, Contains, Occurs;
  }

  // ------------------------------------------------------------- what survives

  lemma {:induction false} ForestConcat(lower: Lower, a: seq<Tree>, b: seq<Tree>)
    ensures ScrubbedForest(lower, a + b) == ScrubbedForest(lower, a) + ScrubbedForest(lower, b)
  {
    if a == [] {
      assert a + b == b;
    } else {
      assert (a + b)[1..] == a[1..] + b;
      ForestConcat(lower, a[1..], b);
    }
  }

  /** Main result on children: among any siblings, a child of a namespaced or plain name is kept, and
      scrubbed, if and only if the name is one of the fifteen words. */
  lemma {:induction false} ChildRule(lower: Lower, before: seq<Tree>, t: Tree, after: seq<Tree>)
    ensures ScrubbedForest(lower, before + [t] + after)
         == ScrubbedForest(lower, before) + (if TagRule(t.tag) then [Scrubbed(lower, t)] else [])
            + ScrubbedForest(lower, after)
  {
    TagRuleIs(t.tag);
    ForestConcat(lower, before + [t], after);
    ScrubbedSnoc(lower, before, t);
  }

  lemma {:induction false} NamespacedChild(ns: string, x: string)
    requires '}' !in x
    ensures TagRule(x) <==> TagWord(x)
    ensures TagRule(ns + "}" + x) <==> TagWord(x)
  {
    OneName(x, x);
    OneName(ns + "}" + x, x);
  }

  lemma {:induction false} OneName(name: string, x: string)
    requires Named(name, x)
    ensures forall y :: Named(name, y) ==> y == x
  {
    forall y | Named(name, y) ensures y == x {
      LocalOf(name, x);
      LocalOf(name, y);
    }
  }

  /** Main result on attributes: an element keeps exactly those that meet the rule, in order, and its
      text unless it is a style sheet that breaks its rule. */
  lemma {:induction false} ElementRule(lower: Lower, t: Tree, a: Attr)
    ensures a in Scrubbed(lower, t).attrs <==> a in t.attrs && AttrRule(lower, a)
    ensures Scrubbed(lower, t).text
         == if Named(t.tag, "style") && !StyleRule(lower, t.text) then Some("") else t.text
    ensures Scrubbed(lower, t).tag == t.tag && Scrubbed(lower, t).tail == t.tail
  {
    FilterMembers(t.attrs, (b: Attr) => KeepsAttr(lower, b.key, b.value));
    AttrRuleIs(lower, a);
    StyleRuleIs(lower, t.tag, t.text);
    hide KeepsAttr, DropsText, AttrRule, StyleRule, Named;
  }

  /** A tree that obeys all rules: nothing in it loads or runs anything from outside. A style text is
      empty or obeys its rule. */
  ghost predicate Obeys(lower: Lower, t: Tree) {
    && (forall a :: a in t.attrs ==> AttrRule(lower, a))
    && (Named(t.tag, "style") ==> t.text == Some("") || StyleRule(lower, t.text))
    && AllObey(lower, t.children)
  }

  ghost predicate AllObey(lower: Lower, ts: seq<Tree>) {
    ts == [] || (TagRule(ts[0].tag) && Obeys(lower, ts[0]) && AllObey(lower, ts[1..]))
  }

  lemma {:induction false} ObeysIs(lower: Lower, t: Tree)
    ensures Satisfies(lower, t) <==> Obeys(lower, t)
    decreases t, 1
  {
    hide KeepsAttr, DropsText, AttrRule, StyleRule, Named;
    forall a | a in t.attrs ensures KeepsAttr(lower, a.key, a.value) <==> AttrRule(lower, a) {
      AttrRuleIs(lower, a);
    }
    StyleRuleIs(lower, t.tag, t.text);
    AllObeyIs(lower, t.children);
  }

  lemma {:induction false} AllObeyIs(lower: Lower, ts: seq<Tree>)
    ensures AllSatisfy(lower, ts) <==> AllObey(lower, ts)
    decreases ts, 0
  {
    hide KeepsTag, TagRule, Satisfies, Obeys;
    if ts != [] {
      TagRuleIs(ts[0].tag);
      ObeysIs(lower, ts[0]);
      AllObeyIs(lower, ts[1..]);
    }
  }

  /** Main result: whatever tree comes in, what the scrub leaves obeys all rules, and the scrub leaves
      alone exactly the trees that do. */
  lemma {:induction false} ScrubbedObeys(lower: Lower, t: Tree)
    ensures Obeys(lower, Scrubbed(lower, t))
    ensures Scrubbed(lower, t) == t <==> Obeys(lower, t)
  {
    hide Scrubbed, Satisfies, Obeys;
    ScrubSatisfies(lower, t);
    ScrubFixed(lower, t);
    ObeysIs(lower, t);
    ObeysIs(lower, Scrubbed(lower, t));
  }
}
