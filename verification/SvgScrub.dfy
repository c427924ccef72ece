/** The SVG scrubber of the CAD preview worker (apps/server/src/workers/cad-preview.py:25-70): a
    recursive procedure that deletes children and attributes of a mutable element tree, proved to
    compute a top-down filter of the tree. `str.lower` of Python is the parameter `lower`. */
module SvgScrub {
  import opened Sequences

  // ------------------------------------------------------------- the allow lists

  predicate IsAllowedTag(local: string) {
    local in {"svg", "g", "defs", "style", "path", "rect", "line", "polyline", "polygon", "circle", "ellipse", "text",
              "tspan", "use", "clipPath"}
  }

  predicate IsAllowedAttr(local: string) {
    local in {"id", "class", "d", "transform", "viewBox", "width", "height", "x", "y", "x1", "y1", "x2", "y2", "cx",
              "cy", "r", "rx", "ry", "points", "fill", "stroke", "stroke-width", "stroke-opacity", "fill-opacity",
              "clip-path", "preserveAspectRatio", "href"}
  }

  /** `name.rsplit("}", 1)[-1]`: the part after the last closing brace. */
  function Local(name: string): string {
    if name == "" then ""
    else if name[|name| - 1] == '}' then ""
    else Local(name[..|name| - 1]) + [name[|name| - 1]]
  }

  predicate Contains(s: string, part: string) {
    exists i :: 0 <= i <= |s| && part <= s[i..]
  }

  type Lower = string -> string

  predicate KeepsAttr(lower: Lower, key: string, value: string) {
    var local := Local(key);
    && IsAllowedAttr(local)
    && !("on" <= lower(local))
    && (local == "href" ==> "#" <= value)
    && !Contains(lower(value), "javascript:") && !Contains(lower(value), "data:")
    && !Contains(lower(value), "http:") && !Contains(lower(value), "https:") && !Contains(lower(value), "url(")
  }

  predicate KeepsTag(tag: string) {
    IsAllowedTag(Local(tag))
  }

  function StyleText(text: Option<string>): string {
    if text.Some? then text.value else ""
  }

  /** The text of a `style` element that is emptied. */
  predicate DropsText(lower: Lower, tag: string, text: Option<string>) {
    && Local(tag) == "style"
    && (Contains(lower(StyleText(text)), "@import") || Contains(lower(StyleText(text)), "url(")
        || Contains(lower(StyleText(text)), "javascript:"))
  }

  // ------------------------------------------------------------- trees as values

  datatype Attr = Attr(key: string, value: string)

  /** An element with its text and the text that follows it. */
  datatype Tree = Node(tag: string, attrs: seq<Attr>, text: Option<string>, tail: Option<string>, children: seq<Tree>)

  function CleanAttrs(lower: Lower, attrs: seq<Attr>): seq<Attr> {
    Filter(attrs, (a: Attr) => KeepsAttr(lower, a.key, a.value))
  }

  function CleanText(lower: Lower, tag: string, text: Option<string>): Option<string> {
    if DropsText(lower, tag, text) then Some("") else text
  }

  function Scrubbed(lower: Lower, t: Tree): Tree {
    Node(t.tag, CleanAttrs(lower, t.attrs), CleanText(lower, t.tag, t.text), t.tail, ScrubbedForest(lower, t.children))
  }

  function ScrubbedForest(lower: Lower, ts: seq<Tree>): seq<Tree> {
    if ts == [] then []
    else (if KeepsTag(ts[0].tag) then [Scrubbed(lower, ts[0])] else []) + ScrubbedForest(lower, ts[1..])
  }

  // ------------------------------------------------------------- attribute dictionaries

  ghost predicate UniqueKeys(attrs: seq<Attr>) {
    forall i, j :: 0 <= i < j < |attrs| ==> attrs[i].key != attrs[j].key
  }

  function Lookup(attrs: seq<Attr>, key: string): string
    requires exists a :: a in attrs && a.key == key
  {
    if attrs[0].key == key then attrs[0].value else Lookup(attrs[1..], key)
  }

  function Differs(key: string): Attr -> bool {
    (a: Attr) => a.key != key
  }

  /** `del attrib[key]` */
  function Deleted(attrs: seq<Attr>, key: string): seq<Attr> {
    Filter(attrs, Differs(key))
  }

  lemma {:induction false} LookupAt(attrs: seq<Attr>, i: nat)
    requires UniqueKeys(attrs) && i < |attrs|
    ensures Lookup(attrs, attrs[i].key) == attrs[i].value
  {
    assert attrs[i] in attrs;
    if i > 0 {
      assert attrs[1..][i - 1] == attrs[i];
      LookupAt(attrs[1..], i - 1);
    }
  }

  lemma {:induction false} OtherKeys(before: seq<Attr>, a: Attr, after: seq<Attr>)
    requires UniqueKeys(before + [a] + after)
    ensures forall k :: 0 <= k < |before| ==> before[k].key != a.key
    ensures forall k :: 0 <= k < |after| ==> after[k].key != a.key
  {
    var all := before + [a] + after;
    assert all[|before|] == a;
    assert forall k :: 0 <= k < |before| ==> all[k] == before[k];
    forall k | 0 <= k < |after| ensures after[k].key != a.key {
      assert all[|before| + 1 + k] == after[k];
    }
  }

  lemma {:induction false} DeletedMiddle(before: seq<Attr>, a: Attr, after: seq<Attr>)
    requires UniqueKeys(before + [a] + after)
    ensures Deleted(before + [a] + after, a.key) == before + after
  {
    OtherKeys(before, a, after);
    hide UniqueKeys, Filter;
    FilterAll(before, Differs(a.key));
    FilterAll(after, Differs(a.key));
    FilterConcat(before + [a], after, Differs(a.key));
    FilterSnoc(before, a, Differs(a.key));
  }

  // ------------------------------------------------------------- trees in the heap

  /** `parent.remove(child)` on the list of children. */
  function Removed(cs: seq<Element>, c: Element): seq<Element> {
    if cs == [] then [] else if cs[0] == c then cs[1..] else [cs[0]] + Removed(cs[1..], c)
  }

  lemma {:induction false} RemovedMiddle(before: seq<Element>, c: Element, after: seq<Element>)
    requires c !in before
    ensures Removed(before + [c] + after, c) == before + after
  {
    if before == [] {
      assert before + [c] + after == [c] + after;
    } else {
      assert (before + [c] + after)[1..] == before[1..] + [c] + after;
      RemovedMiddle(before[1..], c, after);
    }
  }

  class Element {
    const tag: string
    const tail: Option<string>
    var attrib: seq<Attr>
    var text: Option<string>
    var children: seq<Element>
    ghost const Repr: set<Element>

    /** The element is the root of a finite tree whose nodes are all in `Repr`. */
    ghost predicate Valid()
      reads this, Repr
      decreases Repr, 0
    {
      this in Repr && UniqueKeys(attrib) && ValidForest(children, Repr - {this})
    }

    /** The tree that the element is the root of. */
    ghost function View(): Tree
      requires Valid()
      reads this, Repr
      decreases Repr, 0
    {
      Node(tag, attrib, text, tail, Views(children, Repr - {this}))
    }

    /** An element over disjoint trees whose nodes are all in `below`. */
    constructor (tag: string, attrib: seq<Attr>, text: Option<string>, tail: Option<string>,
                 children: seq<Element>, ghost below: set<Element>)
      requires UniqueKeys(attrib) && ValidForest(children, below)
      ensures Valid() && Repr == {this} + below
      ensures View() == Node(tag, attrib, text, tail, old(Views(children, below)))
    {
      this.tag, this.tail, this.attrib, this.text, this.children := tag, tail, attrib, text, children;
      Repr := {this} + below;
      new;
      assert Repr - {this} == below;
    }

    method ScrubChildren(lower: Lower)
      requires Valid()
      modifies this`children, Repr - {this}
      ensures ValidForest(children, Repr - {this})
      ensures Views(children, Repr - {this}) == ScrubbedForest(lower, old(Views(children, Repr - {this})))
      decreases Repr, 0
    {
      ghost var below := Repr - {this};
      hide KeepsTag, Scrubbed, ScrubbedForest, ForestAfter, UniqueKeys, Removed, View, ValidForest, Views;
      var snapshot := children;
      ghost var views := Views(children, below);
      ghost var n := 0;  // how many children were kept
      ForestEnds(lower, views);
      for i := 0 to |snapshot|
        invariant n <= i && n == |ScrubbedForest(lower, views[..i])|
        invariant |children| == n + |snapshot| - i && children[n..] == snapshot[i..]
        invariant ValidForest(children, below)
        invariant Views(children, below) == ForestAfter(lower, views, i)
      {
        var child := snapshot[i];
        assert children[n] == child by {
          assert children[n..][0] == snapshot[i..][0];
        }
        ForestStep(lower, views, i);
        TagAt(children, below, n);
        if !KeepsTag(child.tag) {
          RemoveAt(children, below, n);
          children := Removed(children, child);
          assert children[n..] == snapshot[i + 1..];
        } else {
          ScrubIn(child, children, n, below, lower);
          n := n + 1;
        }
      }
    }

    /** One key of the attribute loop. */
    method ScrubAttribute(key: string, lower: Lower)
      requires exists a :: a in attrib && a.key == key
      modifies this`attrib
      ensures attrib
           == if KeepsAttr(lower, key, Lookup(old(attrib), key)) then old(attrib) else Deleted(old(attrib), key)
    {
      hide Contains, IsAllowedAttr, Lookup, Deleted, Local;
      var local := Local(key);
      var value := Lookup(attrib, key);
      if !IsAllowedAttr(local) || "on" <= lower(local) {
        attrib := Deleted(attrib, key);
        return;
      }
      if local == "href" && !("#" <= value) {
        attrib := Deleted(attrib, key);
        return;
      }
      var lowered := lower(value);
      if Contains(lowered, "javascript:") || Contains(lowered, "data:") || Contains(lowered, "http:")
          || Contains(lowered, "https:") || Contains(lowered, "url(") {
        attrib := Deleted(attrib, key);
      }
    }

    method ScrubAttributes(lower: Lower)
      requires UniqueKeys(attrib)
      modifies this`attrib
      ensures UniqueKeys(attrib) && attrib == CleanAttrs(lower, old(attrib))
    {
      hide KeepsAttr, Lookup, Deleted, AttrsAfter, CleanAttrs, UniqueKeys;
      var snapshot := attrib;
      AttrEnds(lower, snapshot);
      for i := 0 to |snapshot|
        invariant attrib == AttrsAfter(lower, snapshot, i) && UniqueKeys(attrib)
      {
        AttrStep(lower, snapshot, i, attrib);
        ScrubAttribute(snapshot[i].key, lower);
      }
      AttrEnds(lower, snapshot);
    }

    /** The scrubber: children first, then the element's own attributes and text. */
    method Scrub(lower: Lower)
      requires Valid()
      modifies Repr
      ensures Valid() && View() == Scrubbed(lower, old(View()))
      decreases Repr, 1
    {
      hide Contains, ScrubbedForest, CleanAttrs, UniqueKeys, Local, Views, ValidForest;
      ScrubChildren(lower);
      ScrubAttributes(lower);
      if Local(tag) == "style" {
        var style := StyleText(text);
        var lowered := lower(style);
        if Contains(lowered, "@import") || Contains(lowered, "url(") || Contains(lowered, "javascript:") {
          text := Some("");
        }
      }
    }
  }

  /** Disjoint valid trees, all of whose nodes are in `below`. */
  ghost predicate ValidForest(cs: seq<Element>, below: set<Element>)
    reads below
    decreases below, 1
  {
    && (forall c :: c in cs ==> c in below && c.Repr <= below && c.Valid())
    && (forall i, j :: 0 <= i < j < |cs| ==> cs[i].Repr !! cs[j].Repr)
  }

  ghost function Views(cs: seq<Element>, below: set<Element>): (ts: seq<Tree>)
    requires ValidForest(cs, below)
    reads below
    ensures |ts| == |cs|
    ensures forall k :: 0 <= k < |cs| ==> ts[k] == cs[k].View()
    decreases below, |cs| + 1
  {
    if cs == [] then [] else [cs[0].View()] + Views(cs[1..], below)
  }

  /** The attribute keys of every element are distinct, as in any XML document. */
  ghost predicate WellFormed(t: Tree) {
    UniqueKeys(t.attrs) && AllWellFormed(t.children)
  }

  ghost predicate AllWellFormed(ts: seq<Tree>) {
    ts == [] || (WellFormed(ts[0]) && AllWellFormed(ts[1..]))
  }

  /** Every well-formed tree can be built on the heap, out of new elements. */
  method Build(t: Tree) returns (e: Element)
    requires WellFormed(t)
    ensures e.Valid() && e.View() == t && fresh(e.Repr)
    decreases t, 1
  {
    var children, below := BuildForest(t.children);
    e := new Element(t.tag, t.attrs, t.text, t.tail, children, below);
  }

  method BuildForest(ts: seq<Tree>) returns (cs: seq<Element>, ghost below: set<Element>)
    requires AllWellFormed(ts)
    ensures fresh(below) && ValidForest(cs, below) && Views(cs, below) == ts
    decreases ts, 0
  {
    if ts == [] {
      return [], {};
    }
    var first := Build(ts[0]);
    var rest, restBelow := BuildForest(ts[1..]);
    cs, below := [first] + rest, first.Repr + restBelow;
    ForestCons(first, rest, restBelow);
  }

  lemma {:induction false} ForestCons(first: Element, rest: seq<Element>, below: set<Element>)
    requires first.Valid() && ValidForest(rest, below) && first.Repr !! below
    ensures ValidForest([first] + rest, first.Repr + below)
    ensures Views([first] + rest, first.Repr + below) == [first.View()] + Views(rest, below)
  {
    ForestFacts(rest, below);
    assert first in first.Repr;
    hide ValidForest, Views, Element.View, Element.Valid;
    ForestFrom([first] + rest, first.Repr + below, [first.View()] + Views(rest, below));
  }

  /** Scrubbing one tree of a forest leaves the others alone. */
  method ScrubIn(child: Element, ghost cs: seq<Element>, ghost k: nat, ghost below: set<Element>, lower: Lower)
    requires k < |cs| && cs[k] == child && ValidForest(cs, below)
    modifies child.Repr
    ensures ValidForest(cs, below)
    ensures Views(cs, below) == old(Views(cs, below))[k := Scrubbed(lower, old(Views(cs, below))[k])]
    decreases below, 2
  {
    ForestFacts(cs, below);
    hide Element.View, ValidForest, Views, Scrubbed;
    ghost var views := Views(cs, below);
    child.Scrub(lower);
    ForestFrom(cs, below, views[k := Scrubbed(lower, views[k])]);
  }

  lemma {:induction false} TagAt(cs: seq<Element>, below: set<Element>, k: nat)
    requires k < |cs| && ValidForest(cs, below)
    ensures Views(cs, below)[k].tag == cs[k].tag && cs[k].Repr <= below
  {
  }

  lemma {:induction false} RemovedAt(cs: seq<Element>, k: nat)
    requires k < |cs| && cs[k] !in cs[..k]
    ensures Removed(cs, cs[k]) == cs[..k] + cs[k + 1..]
  {
    assert cs == cs[..k] + [cs[k]] + cs[k + 1..];
    RemovedMiddle(cs[..k], cs[k], cs[k + 1..]);
  }

  lemma {:induction false} FirstAt(cs: seq<Element>, below: set<Element>, k: nat)
    requires k < |cs| && ValidForest(cs, below)
    ensures cs[k] !in cs[..k]
  {
    ForestFacts(cs, below);
  }

  lemma {:induction false} RemoveAt(cs: seq<Element>, below: set<Element>, k: nat)
    requires k < |cs| && ValidForest(cs, below)
    ensures Removed(cs, cs[k]) == cs[..k] + cs[k + 1..]
    ensures ValidForest(Removed(cs, cs[k]), below)
    ensures Views(Removed(cs, cs[k]), below) == Views(cs, below)[..k] + Views(cs, below)[k + 1..]
  {
    FirstAt(cs, below, k);
    RemovedAt(cs, k);
    ForestFacts(cs, below);
    hide ValidForest, Views, Element.View, Removed;
    var views := Views(cs, below);
    ForestFrom(cs[..k] + cs[k + 1..], below, views[..k] + views[k + 1..]);
  }

  /** What a valid forest says about its trees one by one, and back. */
  lemma {:induction false} ForestFacts(cs: seq<Element>, below: set<Element>)
    requires ValidForest(cs, below)
    ensures forall k :: 0 <= k < |cs| ==> cs[k] in below && cs[k].Repr <= below && cs[k].Valid() && cs[k] in cs[k].Repr
    ensures forall j, k :: 0 <= j < k < |cs| ==> cs[j].Repr !! cs[k].Repr
    ensures |Views(cs, below)| == |cs| && forall k :: 0 <= k < |cs| ==> cs[k].View() == Views(cs, below)[k]
  {
  }

  lemma {:induction false} ForestFrom(cs: seq<Element>, below: set<Element>, ts: seq<Tree>)
    requires forall k :: 0 <= k < |cs| ==> cs[k] in below && cs[k].Repr <= below && cs[k].Valid()
    requires forall j, k :: 0 <= j < k < |cs| ==> cs[j].Repr !! cs[k].Repr
    requires |ts| == |cs| && forall k :: 0 <= k < |cs| ==> cs[k].View() == ts[k]
    ensures ValidForest(cs, below) && Views(cs, below) == ts
  {
  }

  /** The forest when the loop has visited the first `i` of its trees. */
  function ForestAfter(lower: Lower, views: seq<Tree>, i: nat): seq<Tree>
    requires i <= |views|
  {
    ScrubbedForest(lower, views[..i]) + views[i..]
  }

  lemma {:induction false} ForestEnds(lower: Lower, views: seq<Tree>)
    ensures ScrubbedForest(lower, views[..0]) == []
    ensures ForestAfter(lower, views, 0) == views
    ensures ForestAfter(lower, views, |views|) == ScrubbedForest(lower, views)
  {
    assert views[..|views|] == views;
  }

  /** One step: the tree after the kept ones is dropped or scrubbed. */
  lemma {:induction false} ForestStep(lower: Lower, views: seq<Tree>, i: nat)
    requires i < |views|
    ensures var n, now, next := |ScrubbedForest(lower, views[..i])|, ForestAfter(lower, views, i),
             ForestAfter(lower, views, i + 1);
            && n < |now| && now[n] == views[i]
            && |ScrubbedForest(lower, views[..i + 1])| == n + (if KeepsTag(views[i].tag) then 1 else 0)
            && next == if KeepsTag(views[i].tag) then now[n := Scrubbed(lower, views[i])] else now[..n] + now[n + 1..]
  {
    hide KeepsTag, Scrubbed, ScrubbedForest;
    var done, rest := ScrubbedForest(lower, views[..i]), views[i + 1..];
    assert views[..i + 1] == views[..i] + [views[i]];
    ScrubbedSnoc(lower, views[..i], views[i]);
    assert ForestAfter(lower, views, i) == done + [views[i]] + rest;
    assert (done + [views[i]] + rest)[..|done|] == done && (done + [views[i]] + rest)[|done| + 1..] == rest;
    if KeepsTag(views[i].tag) {
      assert (done + [views[i]] + rest)[|done| := Scrubbed(lower, views[i])]
             == done + [Scrubbed(lower, views[i])] + rest;
    }
  }

  /** The attributes when the loop has visited the first `i` of a snapshot. */
  function AttrsAfter(lower: Lower, snapshot: seq<Attr>, i: nat): seq<Attr>
    requires i <= |snapshot|
  {
    CleanAttrs(lower, snapshot[..i]) + snapshot[i..]
  }

  lemma {:induction false} AttrEnds(lower: Lower, snapshot: seq<Attr>)
    ensures AttrsAfter(lower, snapshot, 0) == snapshot
    ensures AttrsAfter(lower, snapshot, |snapshot|) == CleanAttrs(lower, snapshot)
  {
    assert snapshot[..|snapshot|] == snapshot;
  }

  lemma {:induction false} AttrStep(lower: Lower, snapshot: seq<Attr>, i: nat, attrs: seq<Attr>)
    requires i < |snapshot| && attrs == AttrsAfter(lower, snapshot, i) && UniqueKeys(attrs)
    ensures snapshot[i] in attrs && Lookup(attrs, snapshot[i].key) == snapshot[i].value
    ensures var next := if KeepsAttr(lower, snapshot[i].key, snapshot[i].value) then attrs
             else Deleted(attrs, snapshot[i].key);
            next == AttrsAfter(lower, snapshot, i + 1) && UniqueKeys(next)
  {
    hide KeepsAttr, Lookup, Deleted, UniqueKeys, CleanAttrs;
    var done, rest := CleanAttrs(lower, snapshot[..i]), snapshot[i + 1..];
    assert attrs == done + [snapshot[i]] + rest;
    AtSnapshot(done, snapshot[i], rest);
    CleanSnoc(lower, snapshot[..i], snapshot[i]);
    assert snapshot[..i + 1] == snapshot[..i] + [snapshot[i]];
  }

  /** What one step of the attribute loop finds and may delete. */
  lemma {:induction false} AtSnapshot(before: seq<Attr>, a: Attr, after: seq<Attr>)
    requires UniqueKeys(before + [a] + after)
    ensures a in before + [a] + after
    ensures Lookup(before + [a] + after, a.key) == a.value
    ensures Deleted(before + [a] + after, a.key) == before + after
    ensures UniqueKeys(before + after)
  {
    var all := before + [a] + after;
    assert all[|before|] == a;
    LookupAt(all, |before|);
    DeletedMiddle(before, a, after);
    UniqueWithout(before, a, after);
  }

  lemma {:induction false} UniqueWithout(before: seq<Attr>, a: Attr, after: seq<Attr>)
    requires UniqueKeys(before + [a] + after)
    ensures UniqueKeys(before + after)
  {
    var all, less := before + [a] + after, before + after;
    forall i, j | 0 <= i < j < |less| ensures less[i].key != less[j].key {
      var i', j' := if i < |before| then i else i + 1, if j < |before| then j else j + 1;
      assert less[i] == all[i'] && less[j] == all[j'];
    }
  }

  lemma {:induction false} CleanSnoc(lower: Lower, attrs: seq<Attr>, a: Attr)
    ensures CleanAttrs(lower, attrs + [a])
         == CleanAttrs(lower, attrs) + (if KeepsAttr(lower, a.key, a.value) then [a] else [])
  {
    FilterSnoc(attrs, a, (x: Attr) => KeepsAttr(lower, x.key, x.value));
  }

  lemma {:induction false} ScrubbedSnoc(lower: Lower, ts: seq<Tree>, t: Tree)
    ensures ScrubbedForest(lower, ts + [t])
         == ScrubbedForest(lower, ts) + (if KeepsTag(t.tag) then [Scrubbed(lower, t)] else [])
  {
    if ts == [] {
      assert ts + [t] == [t];
    } else {
      assert (ts + [t])[1..] == ts[1..] + [t];
      ScrubbedSnoc(lower, ts[1..], t);
    }
  }

  // ------------------------------------------------------------- the whole sanitizer

  /** A text that does not parse raises an exception; a root other than `svg` is refused. */
  datatype SvgError = ParseError | SvgRejected

  const SVG_ROOT := "{http://www.w3.org/2000/svg}svg"

  /** The parser and the serialiser of the library. */
  type Parse = string -> Option<Tree>
  type Write = Tree -> string

  /** The tree of an element, as the serialiser walks it. */
  method ReadTree(e: Element) returns (t: Tree)
    requires e.Valid()
    ensures t == e.View()
    decreases e.Repr, 1
  {
    var children := ReadForest(e.children, e.Repr - {e});
    t := Node(e.tag, e.attrib, e.text, e.tail, children);
  }

  method ReadForest(cs: seq<Element>, ghost below: set<Element>) returns (ts: seq<Tree>)
    requires ValidForest(cs, below)
    ensures ts == Views(cs, below)
    decreases below, |cs| + 2
  {
    if cs == [] {
      return [];
    }
    ForestFacts(cs, below);
    var first := ReadTree(cs[0]);
    var rest := ReadForest(cs[1..], below);
    ts := [first] + rest;
  }

  /** The tree that the text parses to is built, scrubbed in place and written out. */
  method SanitizeSvg(value: string, parse: Parse, write: Write, lower: Lower) returns (result: Result<string, SvgError>)
    requires parse(value).Some? ==> WellFormed(parse(value).value)
    ensures result == if parse(value).None? then Err(ParseError)
                      else if parse(value).value.tag != "{http://www.w3.org/2000/svg}svg" then Err(SvgRejected)
                      else Ok(write(Scrubbed(lower, parse(value).value)))
  {
    var parsed := parse(value);
    if parsed.None? {
      return Err(ParseError);
    }
    var root := Build(parsed.value);
    if root.tag != SVG_ROOT {
      return Err(SvgRejected);
    }
    root.Scrub(lower);
    var scrubbed := ReadTree(root);
    return Ok(write(scrubbed));
  }

  // ------------------------------------------------------------- fixed points

  /** The element passes every test of the scrubber, and so does everything below it. */
  predicate Satisfies(lower: Lower, t: Tree) {
    && (forall a :: a in t.attrs ==> KeepsAttr(lower, a.key, a.value))
    && (DropsText(lower, t.tag, t.text) ==> t.text == Some(""))
    && AllSatisfy(lower, t.children)
  }

  predicate AllSatisfy(lower: Lower, ts: seq<Tree>) {
    ts == [] || (KeepsTag(ts[0].tag) && Satisfies(lower, ts[0]) && AllSatisfy(lower, ts[1..]))
  }

  lemma {:induction false} FilterFixed(attrs: seq<Attr>, p: Attr -> bool)
    ensures Filter(attrs, p) == attrs <==> forall a :: a in attrs ==> p(a)
  {
    FilterMembers(attrs, p);
    if forall a :: a in attrs ==> p(a) {
      FilterAll(attrs, p);
    }
  }

  /** Main result on fixed points: the scrub leaves a tree alone exactly when the tree passes every
      test. */
  lemma {:induction false} ScrubFixed(lower: Lower, t: Tree)
    ensures Scrubbed(lower, t) == t <==> Satisfies(lower, t)
    decreases t, 1
  {
    hide KeepsAttr, DropsText, KeepsTag;
    FilterFixed(t.attrs, (a: Attr) => KeepsAttr(lower, a.key, a.value));
    ForestFixed(lower, t.children);
  }

  lemma {:induction false} ForestFixed(lower: Lower, ts: seq<Tree>)
    ensures |ScrubbedForest(lower, ts)| <= |ts|
    ensures ScrubbedForest(lower, ts) == ts <==> AllSatisfy(lower, ts)
    decreases ts, 0
  {
    hide KeepsTag, Scrubbed, Satisfies;
    if ts != [] {
      ScrubFixed(lower, ts[0]);
      ForestFixed(lower, ts[1..]);
      if KeepsTag(ts[0].tag) {
        var rest := ScrubbedForest(lower, ts[1..]);
        assert ScrubbedForest(lower, ts)[0] == Scrubbed(lower, ts[0]) && ScrubbedForest(lower, ts)[1..] == rest;
        assert ts == [ts[0]] + ts[1..];
      }
    }
  }

  /** The result of a scrub passes every test. */
  lemma {:induction false} ScrubSatisfies(lower: Lower, t: Tree)
    ensures Satisfies(lower, Scrubbed(lower, t))
    decreases t, 1
  {
    hide KeepsAttr, DropsText, KeepsTag;
    FilterMembers(t.attrs, (a: Attr) => KeepsAttr(lower, a.key, a.value));
    ForestSatisfies(lower, t.children);
  }

  lemma {:induction false} ForestSatisfies(lower: Lower, ts: seq<Tree>)
    ensures AllSatisfy(lower, ScrubbedForest(lower, ts))
    decreases ts, 0
  {
    hide KeepsTag, Satisfies;
    if ts != [] {
      ScrubSatisfies(lower, ts[0]);
      ForestSatisfies(lower, ts[1..]);
      if KeepsTag(ts[0].tag) {
        assert Scrubbed(lower, ts[0]).tag == ts[0].tag;
        assert ScrubbedForest(lower, ts)[1..] == ScrubbedForest(lower, ts[1..]);
      } else {
        assert ScrubbedForest(lower, ts) == ScrubbedForest(lower, ts[1..]);
      }
    }
  }

  lemma {:induction false} ScrubIdempotent(lower: Lower, t: Tree)
    ensures Scrubbed(lower, Scrubbed(lower, t)) == Scrubbed(lower, t)
  {
    hide Scrubbed, Satisfies;
    ScrubSatisfies(lower, t);
    ScrubFixed(lower, Scrubbed(lower, t));
  }

  // ------------------------------------------------------------- who survives

  /** A node below the root, with the tags on the way down to it. */
  datatype Entry = Entry(path: seq<string>, attrs: seq<Attr>, text: Option<string>, tail: Option<string>)

  /** The nodes of a forest in document order. */
  function Document(ts: seq<Tree>, above: seq<string>): seq<Entry> {
    if ts == [] then []
    else
      var t := ts[0];
      [Entry(above + [t.tag], t.attrs, t.text, t.tail)] + Document(t.children, above + [t.tag])
          + Document(ts[1..], above)
  }

  predicate Survives(path: seq<string>) {
    forall tag :: tag in path ==> KeepsTag(tag)
  }

  /** The survivors of a document, in order, with their own attributes and text cleaned. */
  function Survivors(lower: Lower, entries: seq<Entry>): seq<Entry> {
    if entries == [] then []
    else
      var e := entries[0];
      (if e.path != [] && Survives(e.path)
       then [Entry(e.path, CleanAttrs(lower, e.attrs), CleanText(lower, e.path[|e.path| - 1], e.text), e.tail)] else [])
      + Survivors(lower, entries[1..])
  }

  lemma {:induction false} SurvivorsConcat(lower: Lower, a: seq<Entry>, b: seq<Entry>)
    ensures Survivors(lower, a + b) == Survivors(lower, a) + Survivors(lower, b)
  {
    if a == [] {
      assert a + b == b;
    } else {
      assert (a + b)[1..] == a[1..] + b;
      SurvivorsConcat(lower, a[1..], b);
    }
  }

  lemma {:induction false} NothingBelow(lower: Lower, ts: seq<Tree>, above: seq<string>)
    requires !Survives(above)
    ensures Survivors(lower, Document(ts, above)) == []
  {
    if ts != [] {
      var t := ts[0];
      var tag :| tag in above && !KeepsTag(tag);
      assert tag in above + [t.tag];
      NothingBelow(lower, t.children, above + [t.tag]);
      NothingBelow(lower, ts[1..], above);
      var head := Entry(above + [t.tag], t.attrs, t.text, t.tail);
      SurvivorsConcat(lower, [head] + Document(t.children, above + [t.tag]), Document(ts[1..], above));
      assert ([head] + Document(t.children, above + [t.tag]))[1..] == Document(t.children, above + [t.tag]);
    }
  }

  /** Main result: a node survives exactly when every tag from below the root down to it is on the
      list; survivors keep document order, and each is cleaned on its own. */
  lemma {:induction false} ScrubKeepsSurvivors(lower: Lower, ts: seq<Tree>, above: seq<string>)
    requires Survives(above)
    ensures Document(ScrubbedForest(lower, ts), above) == Survivors(lower, Document(ts, above))
  {
    hide KeepsTag, CleanAttrs, CleanText;
    if ts != [] {
      var t := ts[0];
      ScrubKeepsSurvivors(lower, ts[1..], above);
      SurvivorStep(lower, t, ts, above);
      if KeepsTag(t.tag) {
        ScrubKeepsSurvivors(lower, t.children, above + [t.tag]);
        var rest := ScrubbedForest(lower, ts[1..]);
        assert ([Scrubbed(lower, t)] + rest)[1..] == rest;
      } else {
        assert !Survives(above + [t.tag]) by {
          assert t.tag in above + [t.tag];
        }
        NothingBelow(lower, t.children, above + [t.tag]);
        assert ScrubbedForest(lower, ts) == ScrubbedForest(lower, ts[1..]);
      }
    }
  }

  lemma {:induction false} SurvivorStep(lower: Lower, t: Tree, ts: seq<Tree>, above: seq<string>)
    requires ts != [] && ts[0] == t && Survives(above)
    ensures Survivors(lower, Document(ts, above))
         == (if KeepsTag(t.tag)
             then [Entry(above + [t.tag], CleanAttrs(lower, t.attrs), CleanText(lower, t.tag, t.text), t.tail)] else [])
            + Survivors(lower, Document(t.children, above + [t.tag])) + Survivors(lower, Document(ts[1..], above))
  {
    hide KeepsTag, CleanAttrs, CleanText;
    var head, below, rest := Entry(above + [t.tag], t.attrs, t.text, t.tail), Document(t.children, above + [t.tag]),
        Document(ts[1..], above);
    SurvivorsConcat(lower, [head] + below, rest);
    assert ([head] + below)[1..] == below;
    assert Survives(above + [t.tag]) <==> KeepsTag(t.tag);
  }
}
