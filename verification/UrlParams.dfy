/** `URLSearchParams` as an ordered list of pairs (section 6.2 of the WHATWG URL Standard) and
    `String.prototype.trim`. Percent-encoding is outside the model: serialising and parsing are
    taken to be inverse on pair lists. */
module UrlParams {
  import opened Sequences

  /** Parameter names. The navigation names of the console are constants of their own; any other
      name is `Other`. */
  datatype Key =
    | Section | Invocation | Application | Routine | Run | Evidence | Automation
    | PlanningProject | PlanningView | PlanningStatus | PlanningPriority | PlanningMilestone | PlanningDue
    | Task | TaskMode | TaskView | TaskAreaKey | ExternalTab | SettingsOpen | SettingsCategory | SettingsQuery
    | Other(name: string)

  datatype Param = Param(key: Key, value: string)

  function Get(params: seq<Param>, key: Key): Option<string> {
    if params == [] then None
    else if params[0].key == key then Some(params[0].value)
    else Get(params[1..], key)
  }

  predicate Has(params: seq<Param>, key: Key) {
    Get(params, key).Some?
  }

  function Without(key: Key): Param -> bool {
    (p: Param) => p.key != key
  }

  function Delete(params: seq<Param>, key: Key): seq<Param> {
    Filter(params, Without(key))
  }

  /** Sets the first pair of that name and drops the others, or appends a pair. */
  function Set(params: seq<Param>, key: Key, value: string): seq<Param> {
    if params == [] then [Param(key, value)]
    else if params[0].key == key then [Param(key, value)] + Delete(params[1..], key)
    else [params[0]] + Set(params[1..], key, value)
  }

  /** The mutable object that the printing functions edit. */
  class UrlSearchParams {
    var list: seq<Param>

    constructor (params: seq<Param>)
      ensures list == params
    {
      list := params;
    }

    method DeleteKey(key: Key)
      modifies this
      ensures list == Delete(old(list), key)
    {
      list := Filter(list, Without(key));
    }

    method SetKey(key: Key, value: string)
      modifies this
      ensures list == Set(old(list), key, value)
    {
      list := Set(list, key, value);
    }
  }

  lemma {:induction false} HasMember(params: seq<Param>, key: Key)
    ensures Has(params, key) <==> exists p :: p in params && p.key == key
  {
    if params != [] {
      HasMember(params[1..], key);
      assert forall p :: p in params <==> p == params[0] || p in params[1..];
    }
  }

  lemma {:induction false} SetAbsent(params: seq<Param>, key: Key, value: string)
    requires !Has(params, key)
    ensures Set(params, key, value) == params + [Param(key, value)]
  {
    if params != [] {
      SetAbsent(params[1..], key, value);
    }
  }

  function Named(key: Key): Param -> bool {
    (p: Param) => p.key == key
  }

  /** What `set` promises: afterwards the key has exactly one pair, with the new value, and the
      other pairs are as before, in their order. */
  lemma {:induction false} SetLaws(params: seq<Param>, key: Key, value: string)
    ensures Filter(Set(params, key, value), Named(key)) == [Param(key, value)]
    ensures Delete(Set(params, key, value), key) == Delete(params, key)
    ensures Get(Set(params, key, value), key) == Some(value)
  {
    if params != [] {
      if params[0].key == key {
        assert ([Param(key, value)] + Delete(params[1..], key))[1..] == Delete(params[1..], key);
        FilterTwice(params[1..], Without(key), Without(key));
        FilterCong(params[1..], Both(Without(key), Without(key)), Without(key));
        FilterMembers(params[1..], Without(key));
        FilterEmpty(Delete(params[1..], key), Named(key));
      } else {
        SetLaws(params[1..], key, value);
        assert ([params[0]] + Set(params[1..], key, value))[1..] == Set(params[1..], key, value);
      }
    } else {
      assert [Param(key, value)][1..] == [];
    }
  }

  /** A key that is there is replaced where it first occurs. */
  lemma {:induction false} SetPresent(before: seq<Param>, previous: string, after: seq<Param>, key: Key, value: string)
    requires !Has(before, key)
    ensures Set(before + [Param(key, previous)] + after, key, value)
         == before + [Param(key, value)] + Delete(after, key)
  {
    var all := before + [Param(key, previous)] + after;
    if before == [] {
      assert all[1..] == after;
    } else {
      assert all[1..] == before[1..] + [Param(key, previous)] + after;
      SetPresent(before[1..], previous, after, key, value);
    }
  }

  lemma {:induction false} GetConcat(a: seq<Param>, b: seq<Param>, key: Key)
    ensures Get(a + b, key) == if Has(a, key) then Get(a, key) else Get(b, key)
  {
    if a == [] {
      assert a + b == b;
    } else {
      assert (a + b)[1..] == a[1..] + b;
      GetConcat(a[1..], b, key);
    }
  }

  /** One pair for each of `keys` that `value` gives a value, in the order of `keys`. */
  function Collect(keys: seq<Key>, value: Key -> Option<string>): seq<Param> {
    if keys == [] then []
    else
      var last := keys[|keys| - 1];
      Collect(keys[..|keys| - 1], value) + (if value(last).Some? then [Param(last, value(last).value)] else [])
  }

  lemma {:induction false} CollectMembers(keys: seq<Key>, value: Key -> Option<string>)
    ensures forall p :: p in Collect(keys, value) ==> p.key in keys
  {
    if keys != [] {
      CollectMembers(keys[..|keys| - 1], value);
    }
  }

  lemma {:induction false} GetCollect(keys: seq<Key>, value: Key -> Option<string>, key: Key)
    requires Distinct(keys)
    ensures Get(Collect(keys, value), key) == if key in keys then value(key) else None
  {
    if keys != [] {
      var front, last := keys[..|keys| - 1], keys[|keys| - 1];
      assert keys == front + [last];
      GetCollect(front, value, key);
      GetConcat(Collect(front, value), if value(last).Some? then [Param(last, value(last).value)] else [], key);
    }
  }

  function Put(params: seq<Param>, key: Key, value: Option<string>): seq<Param> {
    if value.Some? then Set(params, key, value.value) else params
  }

  /** Collecting one key more is setting that key, when it has a value. */
  lemma {:induction false} CollectStep(base: seq<Param>, keys: seq<Key>, value: Key -> Option<string>, i: nat)
    requires i < |keys| && Distinct(keys) && forall p :: p in base ==> p.key !in keys
    ensures base + Collect(keys[..i + 1], value) == Put(base + Collect(keys[..i], value), keys[i], value(keys[i]))
  {
    hide Set;
    var list, key := base + Collect(keys[..i], value), keys[i];
    assert keys[..i + 1][..i] == keys[..i];
    HasMember(list, key);
    CollectMembers(keys[..i], value);
    assert !Has(list, key) by {
      assert key !in keys[..i];
    }
    if value(key).Some? {
      SetAbsent(list, key, value(key).value);
    }
  }

  lemma {:induction false} CollectCong(keys: seq<Key>, f: Key -> Option<string>, g: Key -> Option<string>)
    requires forall k :: k in keys ==> f(k) == g(k)
    ensures Collect(keys, f) == Collect(keys, g)
  {
    if keys != [] {
      CollectCong(keys[..|keys| - 1], f, g);
    }
  }

  // ------------------------------------------------------------- trim

  /** White space and line terminators (sections 12.2 and 12.3 of ECMA-262). */
  predicate IsSpace(c: char) {
    || '\t' <= c <= '\r' || c == ' ' || c == '\U{00A0}' || c == '\U{1680}'
    || '\U{2000}' <= c <= '\U{200A}' || c == '\U{2028}' || c == '\U{2029}' || c == '\U{202F}'
    || c == '\U{205F}' || c == '\U{3000}' || c == '\U{FEFF}'
  }

  function TrimStart(s: string): (r: string)
    ensures r == "" || !IsSpace(r[0])
    ensures |r| <= |s|
  {
    if s != "" && IsSpace(s[0]) then TrimStart(s[1..]) else s
  }

  function TrimEnd(s: string): (r: string)
    ensures r == "" || !IsSpace(r[|r| - 1])
    ensures r <= s
  {
    if s != "" && IsSpace(s[|s| - 1]) then TrimEnd(s[..|s| - 1]) else s
  }

  function Trim(s: string): string {
    TrimEnd(TrimStart(s))
  }

  predicate Trimmed(s: string) {
    s == "" || (!IsSpace(s[0]) && !IsSpace(s[|s| - 1]))
  }

  /** `trim` gives trimmed text and leaves exactly the trimmed texts alone. */
  lemma {:induction false} TrimLaws(s: string)
    ensures Trimmed(Trim(s))
    ensures Trim(s) == s <==> Trimmed(s)
    ensures Trim(Trim(s)) == Trim(s)
  {
    var t := TrimStart(s);
    assert Trim(s) == "" || Trim(s)[0] == t[0];
  }

  /** The characters that `trim` removes, by code point. */
  lemma {:induction false} SpaceCodes(c: char)
    ensures IsSpace(c) <==>
            || c as int in {9, 10, 11, 12, 13, 32, 160, 5760, 8232, 8233, 8239, 8287, 12288, 65279}
            || 8192 <= c as int <= 8202
  {
  }

  ghost predicate Blank(s: string) {
    forall c :: c in s ==> IsSpace(c)
  }

  lemma {:induction false} TrimStartAround(a: string, v: string)
    requires Blank(a) && (v == "" || !IsSpace(v[0]))
    ensures TrimStart(a + v) == v
  {
    hide IsSpace;
    if a == "" {
      assert a + v == v;
    } else {
      assert (a + v)[1..] == a[1..] + v;
      TrimStartAround(a[1..], v);
    }
  }

  lemma {:induction false} TrimEndAround(v: string, b: string)
    requires Blank(b) && (v == "" || !IsSpace(v[|v| - 1]))
    ensures TrimEnd(v + b) == v
  {
    hide IsSpace;
    if b == "" {
      assert v + b == v;
    } else {
      assert (v + b)[..|v + b| - 1] == v + b[..|b| - 1];
      TrimEndAround(v, b[..|b| - 1]);
    }
  }

  /** `trim` takes blanks off both ends and nothing else. */
  lemma {:induction false} TrimAround(a: string, v: string, b: string)
    requires Blank(a) && Blank(b) && v != "" && !IsSpace(v[0]) && !IsSpace(v[|v| - 1])
    ensures Trim(a + v + b) == v
  {
    hide IsSpace;
    assert a + v + b == a + (v + b);
    TrimStartAround(a, v + b);
    TrimEndAround(v, b);
  }

  lemma {:induction false} TrimBlank(s: string)
    requires Blank(s)
    ensures Trim(s) == ""
  {
    hide IsSpace;
    TrimStartAround(s, "");
    assert s + "" == s;
  }

  lemma {:induction false} TrimStartCuts(s: string) returns (a: string)
    ensures s == a + TrimStart(s) && Blank(a)
  {
    hide IsSpace;
    a := "";
    if s != "" && IsSpace(s[0]) {
      var rest := TrimStartCuts(s[1..]);
      a := [s[0]] + rest;
    }
  }

  lemma {:induction false} TrimEndCuts(s: string) returns (b: string)
    ensures s == TrimEnd(s) + b && Blank(b)
  {
    hide IsSpace;
    b := "";
    if s != "" && IsSpace(s[|s| - 1]) {
      var rest := TrimEndCuts(s[..|s| - 1]);
      b := rest + [s[|s| - 1]];
    }
  }

  /** Every text is its trimmed text between blanks. */
  lemma {:induction false} TrimCuts(s: string) returns (a: string, b: string)
    ensures s == a + Trim(s) + b && Blank(a) && Blank(b)
  {
    a := TrimStartCuts(s);
    b := TrimEndCuts(TrimStart(s));
  }

  /** `delete` takes out all pairs of a key and keeps the others in order. */
  lemma {:induction false} DeleteLaws(params: seq<Param>, key: Key, other: Key)
    ensures !Has(Delete(params, key), key)
    ensures other != key ==> Filter(Delete(params, key), Named(other)) == Filter(params, Named(other))
    ensures other != key ==> Get(Delete(params, key), other) == Get(params, other)
  {
    HasMember(Delete(params, key), key);
    FilterMembers(params, Without(key));
    if other != key {
      DeleteOthers(params, key, other);
    }
  }

  lemma {:induction false} DeleteOthers(params: seq<Param>, key: Key, other: Key)
    requires other != key
    ensures Filter(Delete(params, key), Named(other)) == Filter(params, Named(other))
    ensures Get(Delete(params, key), other) == Get(params, other)
  {
    FilterTwice(params, Without(key), Named(other));
    FilterCong(params, Both(Without(key), Named(other)), Named(other));
    GetDeleted(params, key, other);
  }

  lemma {:induction false} GetDeleted(params: seq<Param>, key: Key, other: Key)
    requires other != key
    ensures Get(Delete(params, key), other) == Get(params, other)
  {
    if params != [] {
      GetDeleted(params[1..], key, other);
      var rest := Delete(params[1..], key);
      assert ([params[0]] + rest)[1..] == rest;
    }
  }
}
