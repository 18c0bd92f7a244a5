/**
  The configuration server's profile lookup and deep merge (internal/configserver/server.go).
  A configuration is a tree: a map node, or anything else, which the merge never looks inside.
 */
module ConfigServing {
  import opened Prelude

  datatype Value = Scalar(text: string) | Tree(fields: map<string, Value>)

  type Config = map<string, Value>

  // ---------- The merge as a function ----------

  function MergeValue(base: Value, over: Value): Value
    decreases over
  {
    if base.Tree? && over.Tree? then
      Tree(map k | k in base.fields.Keys + over.fields.Keys ::
        if k !in over.fields then base.fields[k]
        else if k !in base.fields then over.fields[k]
        else MergeValue(base.fields[k], over.fields[k]))
    else over
  }

  function Merge(base: Config, over: Config): Config {
    MergeValue(Tree(base), Tree(over)).fields
  }

  // ---------- What a merge means, path by path ----------

  function Lookup(v: Value, path: seq<string>): Option<Value> {
    if path == [] then Some(v)
    else if v.Tree? && path[0] in v.fields then Lookup(v.fields[path[0]], path[1..])
    else None
  }

  /** `v` has something other than a map strictly above `path`. */
  ghost predicate Blocks(v: Value, path: seq<string>) {
    exists i :: 0 <= i < |path| && Lookup(v, path[..i]).Some? && Lookup(v, path[..i]).value.Scalar?
  }

  /** What a tree has at a path, without what is below. */
  datatype Node = Leaf(text: string) | Branch

  function NodeAt(v: Value, path: seq<string>): Option<Node> {
    match Lookup(v, path)
    case None => None
    case Some(Scalar(text)) => Some(Leaf(text))
    case Some(Tree(_)) => Some(Branch)
  }

  /** The path-wise override, stated on the nodes of the two trees alone. */
  ghost function Overridden(base: Value, over: Value, path: seq<string>): Option<Node> {
    if NodeAt(over, path).Some? then NodeAt(over, path)
    else if Blocks(over, path) then None
    else NodeAt(base, path)
  }

  lemma BlocksStep(v: Value, path: seq<string>)
    requires path != []
    ensures Blocks(v, path) <==>
            v.Scalar? || (path[0] in v.fields && Blocks(v.fields[path[0]], path[1..]))
  {
    if v.Scalar? {
      assert Lookup(v, path[..0]) == Some(v);
    } else if path[0] in v.fields {
      var w, rest := v.fields[path[0]], path[1..];
      forall i | 0 < i < |path| ensures Lookup(v, path[..i]) == Lookup(w, rest[..i - 1]) {
        assert path[..i][1..] == rest[..i - 1];
      }
      if Blocks(w, rest) {
        var j :| 0 <= j < |rest| && Lookup(w, rest[..j]).Some? && Lookup(w, rest[..j]).value.Scalar?;
        assert Lookup(v, path[..j + 1]) == Lookup(w, rest[..j]);
      }
    } else {
      forall i | 0 < i < |path| ensures Lookup(v, path[..i]) == None {
        assert path[..i][0] == path[0];
      }
    }
  }

  /** For every path, the merged tree has there exactly what the override rule says. */
  lemma {:induction false} MergeIsPathwise(base: Value, over: Value, path: seq<string>)
    ensures NodeAt(MergeValue(base, over), path) == Overridden(base, over, path)
  {
    if path != [] {
      BlocksStep(over, path);
      if base.Tree? && over.Tree? && path[0] in base.fields && path[0] in over.fields {
        MergeIsPathwise(base.fields[path[0]], over.fields[path[0]], path[1..]);
      } else if over.Tree? && path[0] in over.fields {
        assert Lookup(base, path) == None;
        assert Lookup(MergeValue(base, over), path) == Lookup(over, path);
      }
    }
  }

  lemma LookupBelow(v: Value, k: string, path: seq<string>)
    requires v.Tree? && k in v.fields
    ensures NodeAt(v, [k] + path) == NodeAt(v.fields[k], path)
  {
    assert ([k] + path)[1..] == path;
  }

  lemma LookupKey(v: Value, k: string)
    requires v.Tree?
    ensures NodeAt(v, [k]).Some? <==> k in v.fields
  {
    var path := [k];
    assert path[0] == k && path[1..] == [];
    assert k in v.fields ==> Lookup(v.fields[k], []) == Some(v.fields[k]);
  }

  ghost predicate SameNodes(v: Value, w: Value) {
    forall path :: NodeAt(v, path) == NodeAt(w, path)
  }

  /** A tree is determined by its nodes. */
  lemma {:induction false} SameNodesSameTree(v: Value, w: Value)
    requires SameNodes(v, w)
    ensures v == w
  {
    assert NodeAt(v, []) == NodeAt(w, []);
    if v.Tree? {
      forall k ensures k in v.fields <==> k in w.fields {
        LookupKey(v, k);
        LookupKey(w, k);
        assert NodeAt(v, [k]) == NodeAt(w, [k]);
      }
      forall k | k in v.fields ensures v.fields[k] == w.fields[k] {
        forall path ensures NodeAt(v.fields[k], path) == NodeAt(w.fields[k], path) {
          LookupBelow(v, k, path);
          LookupBelow(w, k, path);
          assert NodeAt(v, [k] + path) == NodeAt(w, [k] + path);
        }
        SameNodesSameTree(v.fields[k], w.fields[k]);
      }
      assert v.fields == w.fields;
    }
  }

  /** The merge is the one tree that has at every path what the override rule says. */
  lemma {:induction false} MergeIsTheOverride(base: Value, over: Value, m: Value)
    ensures (forall path :: NodeAt(m, path) == Overridden(base, over, path)) <==> m == MergeValue(base, over)
  {
    forall path ensures NodeAt(MergeValue(base, over), path) == Overridden(base, over, path) {
      MergeIsPathwise(base, over, path);
    }
    if forall path :: NodeAt(m, path) == Overridden(base, over, path) {
      assert SameNodes(m, MergeValue(base, over));
      SameNodesSameTree(m, MergeValue(base, over));
    }
  }

  // ---------- Laws ----------

  lemma {:induction false} MergeIdempotent(v: Value)
    ensures MergeValue(v, v) == v
  {
    if v.Tree? {
      forall k | k in v.fields ensures MergeValue(v.fields[k], v.fields[k]) == v.fields[k] {
        MergeIdempotent(v.fields[k]);
      }
      assert MergeValue(v, v).fields == v.fields;
    }
  }

  lemma MergeUnit(v: Config)
    ensures Merge(v, map[]) == v && Merge(map[], v) == v
  {
  }

  /** Everything `over` sets survives, so merging it again changes nothing. */
  lemma {:induction false} MergeAbsorbs(base: Value, over: Value)
    ensures MergeValue(MergeValue(base, over), over) == MergeValue(base, over)
    decreases over
  {
    if base.Tree? && over.Tree? {
      var m := MergeValue(base, over);
      forall k | k in over.fields
        ensures MergeValue(m.fields[k], over.fields[k]) == m.fields[k]
      {
        if k in base.fields {
          MergeAbsorbs(base.fields[k], over.fields[k]);
        } else {
          MergeIdempotent(over.fields[k]);
        }
      }
      assert MergeValue(m, over).fields == m.fields;
    } else {
      MergeIdempotent(over);
    }
  }

  /** Every map of `a` that meets a map of `c` adds no key to it. */
  predicate Covered(a: Value, c: Value)
    decreases c
  {
    a.Tree? && c.Tree? ==>
      && a.fields.Keys <= c.fields.Keys
      && forall k :: k in a.fields ==> Covered(a.fields[k], c.fields[k])
  }

  lemma {:induction false} CoveredIff(a: Value, c: Value)
    ensures MergeValue(a, c) == c <==> Covered(a, c)
    decreases c
  {
    if a.Tree? && c.Tree? {
      var m := MergeValue(a, c).fields;
      forall k | k in a.fields && k in c.fields
        ensures m[k] == c.fields[k] <==> Covered(a.fields[k], c.fields[k])
      {
        CoveredIff(a.fields[k], c.fields[k]);
      }
      if Covered(a, c) {
        assert m == c.fields;
      }
    }
  }

  /** Where a non-map of `b` lies between maps of `a` and `c`, that map of `a` adds nothing. */
  predicate Associates(a: Value, b: Value, c: Value)
    decreases c
  {
    c.Tree? ==>
      if b.Scalar? then Covered(a, c)
      else a.Tree? ==>
        forall k :: k in a.fields && k in b.fields && k in c.fields ==>
          Associates(a.fields[k], b.fields[k], c.fields[k])
  }

  /** The merge is not associative; it is exactly on the triples that satisfy `Associates`. */
  lemma {:induction false} AssociativeIff(a: Value, b: Value, c: Value)
    ensures MergeValue(MergeValue(a, b), c) == MergeValue(a, MergeValue(b, c)) <==> Associates(a, b, c)
    decreases c
  {
    if c.Tree? && b.Scalar? {
      CoveredIff(a, c);
    } else if a.Tree? && b.Tree? && c.Tree? {
      var l, r := MergeValue(MergeValue(a, b), c).fields, MergeValue(a, MergeValue(b, c)).fields;
      KeywiseAssociative(a, b, c);
      if Associates(a, b, c) {
        assert l == r;
      } else {
        var k :| k in a.fields && k in b.fields && k in c.fields &&
          !Associates(a.fields[k], b.fields[k], c.fields[k]);
        assert l[k] != r[k];
      }
    }
  }

  /** A scalar between two maps: one grouping drops the first map, the other keeps it. */
  lemma ScalarBetweenMaps(key: string, value: Value, text: string)
    ensures var (a, b, c) := (Tree(map[key := value]), Scalar(text), Tree(map[]));
      && !Associates(a, b, c)
      && MergeValue(MergeValue(a, b), c) == c && MergeValue(a, MergeValue(b, c)) == a != c
  {
    var a, c := Tree(map[key := value]), Tree(map[]);
    assert key in a.fields && key !in c.fields;
    assert MergeValue(a, c).fields == a.fields;
  }

  lemma {:induction false} KeywiseAssociative(a: Value, b: Value, c: Value)
    requires a.Tree? && b.Tree? && c.Tree?
    ensures var l, r := MergeValue(MergeValue(a, b), c).fields, MergeValue(a, MergeValue(b, c)).fields;
      && l.Keys == r.Keys
      && forall k :: k in l ==>
           (l[k] == r[k] <==>
             (k in a.fields && k in b.fields && k in c.fields ==>
                Associates(a.fields[k], b.fields[k], c.fields[k])))
    decreases c, 0
  {
    var l, r := MergeValue(MergeValue(a, b), c).fields, MergeValue(a, MergeValue(b, c)).fields;
    forall k | k in a.fields && k in b.fields && k in c.fields
      ensures l[k] == r[k] <==> Associates(a.fields[k], b.fields[k], c.fields[k])
    {
      AssociativeIff(a.fields[k], b.fields[k], c.fields[k]);
    }
  }

  // ---------- The loops of deepMerge ----------

  lemma MergeAt(base: Config, over: Config, k: string)
    requires k in base || k in over
    ensures k in Merge(base, over)
    ensures Merge(base, over)[k] ==
            if k !in over then base[k] else if k !in base then over[k] else MergeValue(base[k], over[k])
  {
  }

  /** The state of the second loop: the keys of `todo` are still to be merged in. */
  ghost predicate PartlyMerged(base: Config, over: Config, todo: set<string>, result: Config) {
    && result.Keys == base.Keys + (over.Keys - todo)
    && forall k :: k in result ==> result[k] == if k in todo then base[k] else Merge(base, over)[k]
  }

  lemma MergedIn(base: Config, over: Config, todo: set<string>, result: Config, k: string, value: Value)
    requires todo <= over.Keys && k in todo && PartlyMerged(base, over, todo, result)
    requires value == if k in base then MergeValue(base[k], over[k]) else over[k]
    ensures PartlyMerged(base, over, todo - {k}, result[k := value])
  {
    MergeAt(base, over, k);
  }

  /** Both loops run in arbitrary order. */
  method DeepMerge(base: Config, over: Config) returns (result: Config)
    ensures result == Merge(base, over)
    decreases Tree(over)
  {
    result := map[];
    var todo := base.Keys;
    while todo != {}
      invariant todo <= base.Keys && result == map k | k in base && k !in todo :: base[k]
      decreases todo
    {
      var k :| k in todo;
      todo := todo - {k};
      result := result[k := base[k]];
    }
    assert result == base;
    todo := over.Keys;
    while todo != {}
      invariant todo <= over.Keys && PartlyMerged(base, over, todo, result)
      decreases todo
    {
      var k :| k in todo;
      var value := over[k];
      assert k in result <==> k in base;
      if k in result && result[k].Tree? && over[k].Tree? {
        var sub := DeepMerge(result[k].fields, over[k].fields);
        value := Tree(sub);
      }
      MergedIn(base, over, todo, result, k, value);
      todo := todo - {k};
      result := result[k := value];
    }
  }

  // ---------- Serving a profile ----------

  function Key(application: string, profile: string): string {
    application + "/" + profile
  }

  function Layer(configs: map<string, Config>, key: string): Config {
    if key in configs then configs[key] else map[]
  }

  /** The default layer overridden by the profile's layer, either of which may be missing. */
  function Served(configs: map<string, Config>, application: string, profile: string): Option<Config> {
    var base, over := Key(application, "default"), Key(application, profile);
    if base !in configs && over !in configs then None
    else Some(Merge(Layer(configs, base), Layer(configs, over)))
  }

  class ConfigServer {
    var configs: map<string, Config>

    constructor (c: map<string, Config>)
      ensures configs == c
    {
      configs := c;
    }

    method GetConfig(application: string, profile: string) returns (r: Option<Config>)
      ensures r == Served(configs, application, profile)
    {
      var key := Key(application, profile);
      if key in configs {
        var merged := MergeWithDefault(application, configs[key]);
        return Some(merged);
      }
      var fallback := Key(application, "default");
      if fallback in configs {
        MergeUnit(configs[fallback]);
        return Some(configs[fallback]);
      }
      return None;
    }

    method MergeWithDefault(application: string, profileConfig: Config) returns (r: Config)
      ensures r == Merge(Layer(configs, Key(application, "default")), profileConfig)
    {
      var defaultKey := Key(application, "default");
      if defaultKey !in configs {
        MergeUnit(profileConfig);
        return profileConfig;
      }
      r := DeepMerge(configs[defaultKey], profileConfig);
    }
  }

  /** The second pair is the first with the slash read further on. */
  ghost predicate Shifted(a: string, p: string, b: string, q: string) {
    exists m :: b == Key(a, m) && p == Key(m, q)
  }

  lemma {:induction false} ShiftedKeys(a: string, p: string, b: string, q: string)
    requires |a| < |b| && Key(a, p) == Key(b, q)
    ensures Shifted(a, p, b, q)
  {
    var key, n := Key(a, p), |a| + 1;
    var m := b[n..];
    assert key[|a|] == '/' && key[..|a|] == a && key[n..] == p;
    assert b == key[..|b|] == a + "/" + m;
    assert p == key[n..] == m + "/" + q;
    assert b == Key(a, m) && p == Key(m, q);
  }

  /** Two applications and profiles share a key if and only if they differ at most in where a slash is read. */
  lemma {:induction false} KeysCollideIff(a: string, p: string, b: string, q: string)
    ensures Key(a, p) == Key(b, q) <==> (a == b && p == q) || Shifted(a, p, b, q) || Shifted(b, q, a, p)
  {
    if Key(a, p) == Key(b, q) {
      if |a| < |b| {
        ShiftedKeys(a, p, b, q);
      } else if |b| < |a| {
        ShiftedKeys(b, q, a, p);
      } else {
        assert a == Key(a, p)[..|a|] && b == Key(b, q)[..|a|];
        assert p == Key(a, p)[|a| + 1..] && q == Key(b, q)[|a| + 1..];
      }
    }
    KeysShift(a, p, b, q);
    KeysShift(b, q, a, p);
  }

  lemma KeysShift(a: string, p: string, b: string, q: string)
    ensures Shifted(a, p, b, q) ==> Key(a, p) == Key(b, q)
  {
    if m :| b == Key(a, m) && p == Key(m, q) {
      assert a + "/" + (m + "/" + q) == (a + "/" + m) + "/" + q;
    }
  }

  /** What a stored configuration has at a path; nothing if it is not stored. */
  function StoredNode(configs: map<string, Config>, key: string, path: seq<string>): Option<Node> {
    if key in configs then NodeAt(Tree(configs[key]), path) else None
  }

  /**
    What is served, path by path: the profile's node where it has one, nothing below a scalar of the
    profile, and otherwise the default's node.  Nothing is served if and only if neither is stored.
   */
  lemma {:induction false} ServedPathwise(configs: map<string, Config>, application: string, profile: string,
      path: seq<string>)
    ensures var (key, fallback) := (Key(application, profile), Key(application, "default"));
      match Served(configs, application, profile)
      case None => key !in configs && fallback !in configs
      case Some(served) =>
        && (key in configs || fallback in configs)
        && NodeAt(Tree(served), path) ==
           if StoredNode(configs, key, path).Some? then StoredNode(configs, key, path)
           else if key in configs && Blocks(Tree(configs[key]), path) then None
           else StoredNode(configs, fallback, path)
  {
    var over, base := Layer(configs, Key(application, profile)), Layer(configs, Key(application, "default"));
    MergeIsPathwise(Tree(base), Tree(over), path);
    EmptyNode(path);
  }

  /** An empty map has nothing below its root, and blocks nothing. */
  lemma EmptyNode(path: seq<string>)
    ensures !Blocks(Tree(map[]), path)
    ensures NodeAt(Tree(map[]), path) == if path == [] then Some(Branch) else None
  {
    if path != [] {
      BlocksStep(Tree(map[]), path);
    }
  }

  /** Asking for the default profile by name, or for a profile that is absent, returns the stored default unchanged. */
  lemma DefaultServedUnchanged(configs: map<string, Config>, application: string, profile: string)
    requires Key(application, "default") in configs
    requires profile == "default" || Key(application, profile) !in configs
    ensures Served(configs, application, profile) == Some(configs[Key(application, "default")])
  {
    MergeIdempotent(Tree(configs[Key(application, "default")]));
    MergeUnit(configs[Key(application, "default")]);
  }
}
