/** Layered configuration: the recursive merge of JSON trees and the
    declared-defaults merge built on it. */
module Config {
  import opened Wrappers
  import opened Json
  import Text

  // ---------------------------------------------------------------- deep merge

  /** What key `k` of an object holds once the overrides are merged in. */
  function MergedField(target: Json, overrides: Json, k: string): Json
    requires target.Obj? && overrides.Obj?
    requires k in target.fields || k in overrides.fields
    decreases target, 0
  {
    if k !in overrides.fields then target.fields[k]
    else if k in target.fields && target.fields[k].Obj? && overrides.fields[k].Obj? then
      Merged(target.fields[k], overrides.fields[k])
    else overrides.fields[k]
  }

  /** The tree after the merge. Anything but two objects leaves the target alone. */
  function Merged(target: Json, overrides: Json): Json
    decreases target, 1
  {
    if target.Obj? && overrides.Obj? then
      Obj(map k | k in target.fields.Keys + overrides.fields.Keys :: MergedField(target, overrides, k))
    else target
  }

  /** The merge loop: one override key at a time, descending where both sides are objects. */
  method DeepMerge(target: Json, overrides: Json) returns (out: Json)
    ensures out == Merged(target, overrides)
    decreases target
  {
    out := target;
    if target.Obj? && overrides.Obj? {
      var t, todo := target.fields, overrides.fields.Keys;
      while todo != {}
        invariant todo <= overrides.fields.Keys
        invariant t.Keys == target.fields.Keys + (overrides.fields.Keys - todo)
        invariant forall k :: k in t ==>
          t[k] == if k in todo then target.fields[k] else MergedField(target, overrides, k)
      {
        var k :| k in todo;
        var v := overrides.fields[k];
        if k in t && t[k].Obj? && v.Obj? {
          var merged := DeepMerge(t[k], v);
          t := t[k := merged];
        } else {
          t := t[k := v];
        }
        todo := todo - {k};
      }
      out := Obj(t);
    }
  }

  // ------------------------------------------------------------- paths and leaves

  /** What stands at a path of keys. */
  function Lookup(v: Json, path: seq<string>): Option<Json>
    decreases |path|
  {
    if path == [] then Some(v)
    else match v.Get(path[0])
      case None => None
      case Some(child) => Lookup(child, path[1..])
  }

  /** The override neither holds something at this path nor hides it behind a value
      that is not an object. */
  predicate Untouched(o: Json, path: seq<string>)
    decreases |path|
  {
    match o
    case Obj(fields) => path != [] && (path[0] in fields ==> Untouched(fields[path[0]], path[1..]))
    case _ => false
  }

  /** A value other than an object stands at a path of the merged tree exactly when the
      override puts it there, or the target has it there and the override leaves it alone. */
  lemma {:induction false} MergedLeaf(t: Json, o: Json, path: seq<string>, leaf: Json)
    requires t.Obj? && o.Obj? && !leaf.Obj?
    ensures Lookup(Merged(t, o), path) == Some(leaf) <==>
      Lookup(o, path) == Some(leaf) || (Lookup(t, path) == Some(leaf) && Untouched(o, path))
    decreases |path|
  {
    if path != [] {
      var k := path[0];
      if k in o.fields && k in t.fields && t.fields[k].Obj? && o.fields[k].Obj? {
        MergedLeaf(t.fields[k], o.fields[k], path[1..], leaf);
      } else if k in o.fields {
        assert Untouched(o.fields[k], path[1..]) ==> o.fields[k].Obj? && path[1..] != [];
      }
    }
  }

  /** Merging the same override twice changes nothing more. */
  lemma {:induction false} MergeIdempotent(t: Json, o: Json)
    ensures Merged(Merged(t, o), o) == Merged(t, o)
    decreases o
  {
    if t.Obj? && o.Obj? {
      forall k | k in o.fields && o.fields[k].Obj?
        ensures Merged(o.fields[k], o.fields[k]) == o.fields[k]
        ensures k in t.fields ==>
          Merged(Merged(t.fields[k], o.fields[k]), o.fields[k]) == Merged(t.fields[k], o.fields[k])
      {
        MergeSelf(o.fields[k]);
        if k in t.fields {
          MergeIdempotent(t.fields[k], o.fields[k]);
        }
      }
      assert Merged(Merged(t, o), o).fields == Merged(t, o).fields;
    }
  }

  lemma {:induction false} MergeSelf(o: Json)
    ensures Merged(o, o) == o
    decreases o
  {
    if o.Obj? {
      forall k | k in o.fields
        ensures MergedField(o, o, k) == o.fields[k]
      {
        MergeSelf(o.fields[k]);
      }
      assert Merged(o, o).fields == o.fields;
    }
  }

  /** The empty object is a unit on both sides: on the right for every target, on the left
      for every object. */
  lemma MergeUnit(v: Json)
    ensures Merged(v, Obj(map[])) == v
    ensures v.Obj? ==> Merged(Obj(map[]), v) == v
  {
    if v.Obj? {
      assert Merged(v, Obj(map[])).fields == v.fields;
      assert Merged(Obj(map[]), v).fields == v.fields;
    }
  }

  /** Somewhere the middle layer puts a plain value between two objects, and the upper object
      does not by itself replace the lower one. */
  ghost predicate Blocks(a: Json, b: Json, c: Json)
    requires a.Obj? && b.Obj? && c.Obj?
    decreases a
  {
    exists k :: k in a.fields && k in b.fields && k in c.fields && a.fields[k].Obj? && c.fields[k].Obj? &&
                if b.fields[k].Obj? then Blocks(a.fields[k], b.fields[k], c.fields[k])
                else Merged(a.fields[k], c.fields[k]) != c.fields[k]
  }

  /** Three layers may be merged in either grouping exactly when the middle one does not block. */
  lemma {:induction false} MergeAssociative(a: Json, b: Json, c: Json)
    requires a.Obj? && b.Obj? && c.Obj?
    ensures Merged(Merged(a, b), c) == Merged(a, Merged(b, c)) <==> !Blocks(a, b, c)
    decreases a
  {
    var ab, bc := Merged(a, b), Merged(b, c);
    var l, r := Merged(ab, c), Merged(a, bc);
    forall k | k in l.fields
      ensures l.fields[k] == r.fields[k] <==>
        !(k in a.fields && k in b.fields && k in c.fields && a.fields[k].Obj? && c.fields[k].Obj? &&
          if b.fields[k].Obj? then Blocks(a.fields[k], b.fields[k], c.fields[k])
          else Merged(a.fields[k], c.fields[k]) != c.fields[k])
    {
      assert l.fields[k] == MergedField(ab, c, k) && r.fields[k] == MergedField(a, bc, k);
      assert k in a.fields || k in b.fields ==> ab.fields[k] == MergedField(a, b, k);
      assert k in b.fields || k in c.fields ==> bc.fields[k] == MergedField(b, c, k);
      if k in a.fields && k in b.fields && k in c.fields && a.fields[k].Obj? && b.fields[k].Obj? && c.fields[k].Obj? {
        MergeAssociative(a.fields[k], b.fields[k], c.fields[k]);
      }
    }
    assert l == r <==> l.fields == r.fields;
    if Blocks(a, b, c) {
      var k :| k in a.fields && k in b.fields && k in c.fields && a.fields[k].Obj? && c.fields[k].Obj? &&
               if b.fields[k].Obj? then Blocks(a.fields[k], b.fields[k], c.fields[k])
               else Merged(a.fields[k], c.fields[k]) != c.fields[k];
      assert l.fields[k] != r.fields[k];
    }
  }

  // ------------------------------------------------------- defaults at dotted keys

  datatype ConfigField = ConfigField(key: string, default: Json)

  /** `set_path`: writes at the last key of the path if every key before it leads to an object. */
  function SetPath(target: Json, parts: seq<string>, value: Json): Json
    requires parts != []
    decreases |parts|
  {
    if !target.Obj? then target
    else if |parts| == 1 then Obj(target.fields[parts[0] := value])
    else if parts[0] in target.fields && target.fields[parts[0]].Obj? then
      Obj(target.fields[parts[0] := SetPath(target.fields[parts[0]], parts[1..], value)])
    else target
  }

  function AddDefault(v: Json, f: ConfigField): Json {
    if v.Get(f.key) == None then SetPath(v, Text.Split(f.key, '.'), f.default) else v
  }

  function WithDefaults(fields: seq<ConfigField>, base: Json): Json
    decreases |fields|
  {
    if fields == [] then base
    else AddDefault(WithDefaults(fields[..|fields| - 1], base), fields[|fields| - 1])
  }

  method Merge(fields: seq<ConfigField>, base: Json, overrides: Json) returns (out: Json)
    ensures out == Merged(WithDefaults(fields, base), overrides)
  {
    out := base;
    for i := 0 to |fields|
      invariant out == WithDefaults(fields[..i], base)
    {
      var f := fields[i];
      assert fields[..i + 1][..i] == fields[..i];
      if out.Get(f.key) == None {
        out := SetPath(out, Text.Split(f.key, '.'), f.default);
      }
    }
    assert fields[..|fields|] == fields;
    out := DeepMerge(out, overrides);
  }

  /** `SetPath` acts at its own path only, and there exactly when the parent is an object. */
  lemma {:induction false} SetPathEffect(v: Json, parts: seq<string>, x: Json, path: seq<string>)
    requires parts != []
    ensures Lookup(v, parts[..|parts| - 1]).Some? && Lookup(v, parts[..|parts| - 1]).value.Obj?
      ==> Lookup(SetPath(v, parts, x), parts) == Some(x)
    ensures !(Lookup(v, parts[..|parts| - 1]).Some? && Lookup(v, parts[..|parts| - 1]).value.Obj?)
      ==> SetPath(v, parts, x) == v
    ensures !(parts <= path) && !(path <= parts) ==> Lookup(SetPath(v, parts, x), path) == Lookup(v, path)
    decreases |parts|
  {
    if |parts| > 1 {
      var parent := parts[..|parts| - 1];
      assert parent[1..] == parts[1..][..|parts[1..]| - 1];
      assert parent[0] == parts[0];
      if v.Obj? && parts[0] in v.fields && !v.fields[parts[0]].Obj? {
        var child := v.fields[parts[0]];
        assert Lookup(v, parent) == Lookup(child, parent[1..]);
        assert parent[1..] == [] || Lookup(child, parent[1..]) == None;
      }
      if v.Obj? && parts[0] in v.fields && v.fields[parts[0]].Obj? {
        if path != [] && path[0] == parts[0] {
          assert parts[1..] <= path[1..] ==> parts <= path;
          assert path[1..] <= parts[1..] ==> path <= parts;
          SetPathEffect(v.fields[parts[0]], parts[1..], x, path[1..]);
        } else {
          SetPathEffect(v.fields[parts[0]], parts[1..], x, []);
        }
        assert v.fields[parts[0] := SetPath(v.fields[parts[0]], parts[1..], x)] == v.fields
          || SetPath(v.fields[parts[0]], parts[1..], x) != v.fields[parts[0]];
      }
    }
  }

  /** A declared default is meant to fill a gap. It does so for undotted keys; for a dotted key
      the presence test looks up the whole key at the top level, so a value already standing at
      the path is replaced by the default unless the two agree. */
  lemma DefaultKeepsBase(v: Json, f: ConfigField, present: Json)
    requires Lookup(v, Text.Split(f.key, '.')) == Some(present)
    ensures Lookup(AddDefault(v, f), Text.Split(f.key, '.')) == Some(present) <==>
      '.' !in f.key || v.Get(f.key).Some? || present == f.default
  {
    var parts := Text.Split(f.key, '.');
    LookupParent(v, parts);
    SetPathEffect(v, parts, f.default, parts);
    if '.' !in f.key {
      Text.SplitNone(f.key, '.');
      assert parts[1..] == [];
      assert Lookup(v, parts) == v.Get(f.key);
    }
  }

  lemma {:induction false} LookupParent(v: Json, path: seq<string>)
    requires path != [] && Lookup(v, path).Some?
    ensures Lookup(v, path[..|path| - 1]).Some? && Lookup(v, path[..|path| - 1]).value.Obj?
    decreases |path|
  {
    if |path| > 1 {
      LookupParent(v.fields[path[0]], path[1..]);
      assert path[..|path| - 1][1..] == path[1..][..|path[1..]| - 1];
    }
  }

  /** What a write does to a plain value elsewhere: it goes exactly if the write is to its own path
      or to one above it. */
  lemma {:induction false} SetPathLeaf(v: Json, parts: seq<string>, x: Json, path: seq<string>, leaf: Json)
    requires parts != [] && Lookup(v, path) == Some(leaf) && !leaf.Obj?
    ensures Lookup(SetPath(v, parts, x), path) == if parts <= path then Lookup(x, path[|parts|..]) else Some(leaf)
    decreases |parts|
  {
    if path != [] && |parts| > 1 && path[0] == parts[0] {
      var child := v.fields[path[0]];
      assert parts <= path <==> parts[1..] <= path[1..];
      assert parts <= path ==> path[|parts|..] == path[1..][|parts[1..]|..];
      if child.Obj? {
        SetPathLeaf(child, parts[1..], x, path[1..], leaf);
      } else {
        assert path[1..] == [];
      }
    }
  }

  lemma {:induction false} SplitHead(s: string, c: char)
    ensures c !in Text.Split(s, c)[0]
  {
    if s != "" && s[0] != c {
      SplitHead(s[1..], c);
    }
  }

  /** Defaults never add or remove a key with a dot in it at the top. */
  lemma {:induction false} DottedKeyStays(fields: seq<ConfigField>, base: Json, key: string)
    requires '.' in key
    ensures WithDefaults(fields, base).Get(key) == base.Get(key)
    decreases |fields|
  {
    if fields != [] {
      var last := fields[|fields| - 1];
      DottedKeyStays(fields[..|fields| - 1], base, key);
      SplitHead(last.key, '.');
      assert Text.Split(last.key, '.')[0] != key;
    }
  }

  /** The default is declared with a dotted key that leads to the value or to something above it,
      the base does not hold that whole key at its top, and the default says something else. */
  predicate Disturbs(f: ConfigField, base: Json, path: seq<string>, leaf: Json) {
    var parts := Text.Split(f.key, '.');
    '.' in f.key && base.Get(f.key).None? && parts <= path && Lookup(f.default, path[|parts|..]) != Some(leaf)
  }

  /** The value stands at the path after every one of these defaults. */
  predicate KeptThroughout(fields: seq<ConfigField>, base: Json, path: seq<string>, leaf: Json)
    decreases |fields|
  {
    Lookup(WithDefaults(fields, base), path) == Some(leaf) &&
    (fields != [] ==> KeptThroughout(fields[..|fields| - 1], base, path, leaf))
  }

  /** A whole list of defaults leaves a plain value of the base where it is, all the way through,
      exactly if none of them disturbs it. */
  lemma {:induction false} DefaultsKeepLeaf(fields: seq<ConfigField>, base: Json, path: seq<string>, leaf: Json)
    requires Lookup(base, path) == Some(leaf) && !leaf.Obj?
    ensures KeptThroughout(fields, base, path, leaf) <==> forall f :: f in fields ==> !Disturbs(f, base, path, leaf)
    decreases |fields|
  {
    if fields != [] {
      var init, last := fields[..|fields| - 1], fields[|fields| - 1];
      assert fields == init + [last];
      DefaultsKeepLeaf(init, base, path, leaf);
      if KeptThroughout(init, base, path, leaf) {
        AddDefaultLeaf(init, last, base, path, leaf);
      }
    }
  }

  lemma AddDefaultLeaf(init: seq<ConfigField>, f: ConfigField, base: Json, path: seq<string>, leaf: Json)
    requires Lookup(WithDefaults(init, base), path) == Some(leaf) && !leaf.Obj?
    ensures Lookup(AddDefault(WithDefaults(init, base), f), path) == Some(leaf) <==> !Disturbs(f, base, path, leaf)
  {
    var v, parts := WithDefaults(init, base), Text.Split(f.key, '.');
    SetPathLeaf(v, parts, f.default, path, leaf);
    if '.' in f.key {
      DottedKeyStays(init, base, f.key);
    } else {
      Text.SplitNone(f.key, '.');
    }
  }

  /** A dotted default overwriting what the base says. */
  lemma DottedDefaultOverwrites(base: Json, f: ConfigField)
    requires base == Obj(map["a" := Obj(map["b" := Num(5)])]) && f == ConfigField("a.b", Num(1))
    ensures Lookup(base, ["a", "b"]) == Some(Num(5))
    ensures Lookup(WithDefaults([f], base), ["a", "b"]) == Some(Num(1))
  {
    SplitDotted();
    LookupPair(base);
    SetPathEffect(base, ["a", "b"], f.default, ["a", "b"]);
    assert ["a", "b"][..1] == ["a"];
    assert Lookup(base, ["a"]) == Some(base.fields["a"]);
    assert WithDefaults([f][..0], base) == base;
  }

  lemma SplitDotted()
    ensures Text.Split("a.b", '.') == ["a", "b"]
  {
    Text.SplitNone("b", '.');
    assert ".b"[1..] == "b" && "a.b"[1..] == ".b";
    assert Text.Split(".b", '.') == ["", "b"];
    assert ['a'] + "" == "a";
  }

  lemma LookupPair(v: Json)
    requires v.Obj? && "a" in v.fields && v.fields["a"].Obj? && "b" in v.fields["a"].fields
    ensures Lookup(v, ["a", "b"]) == Some(v.fields["a"].fields["b"])
  {
    assert ["a", "b"][1..] == ["b"] && ["b"][1..] == [];
    assert Lookup(v.fields["a"], ["b"]) == Some(v.fields["a"].fields["b"]);
  }
}
