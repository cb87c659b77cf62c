/** The registry that keeps the index next to its map of tools. */
module Registry {
  import opened ToolSearch
  import opened Wrappers

  datatype Tool = Tool(description: string, category: Option<string>)

  type Tools = map<string, Tool>

  const SPAWN_SUBAGENT := "spawn_subagent"

  /** What a tool is indexed under. */
  function SearchText(name: string, tool: Tool): string {
    name + " " + tool.description
  }

  function DocOf(letters: Alphabet, name: string, tool: Tool): Doc {
    Doc(name, Tokenize(letters, SearchText(name, tool)))
  }

  function Ids(docs: seq<Doc>): seq<string> {
    seq(|docs|, i requires 0 <= i < |docs| => docs[i].id)
  }

  predicate Distinct(names: seq<string>) {
    forall i, j | 0 <= i < j < |names| :: names[i] != names[j]
  }

  /** A copy takes over the registered tools that are named, but for an excluded spawner. */
  predicate Kept(tools: Tools, excludeSpawner: bool, name: string) {
    name in tools && !(excludeSpawner && name == SPAWN_SUBAGENT)
  }

  /** The documents of a copy: one each time a tool that is kept is named. */
  function Copied(letters: Alphabet, tools: Tools, names: seq<string>, excludeSpawner: bool): seq<Doc> {
    if names == [] then []
    else
      var last := names[|names| - 1];
      Copied(letters, tools, names[..|names| - 1], excludeSpawner)
      + if Kept(tools, excludeSpawner, last) then [DocOf(letters, last, tools[last])] else []
  }

  /** Hits under the names of their documents. */
  function Named(docs: seq<Doc>, hits: seq<Scored>): seq<(string, real)>
    requires forall hit | hit in hits :: hit.index < |docs|
  {
    seq(|hits|, i requires 0 <= i < |hits| => assert hits[i] in hits; (docs[hits[i].index].id, hits[i].score))
  }

  function Found(ln: real -> real, docs: seq<Doc>, df: Table, query: seq<string>, limit: nat): seq<(string, real)>
    requires LogLike(ln) && TableOk(docs, df)
  {
    BestAreExactly(ln, docs, df, query, limit);
    Named(docs, Best(ln, docs, df, query, limit))
  }

  class ToolRegistry {
    var tools: Tools
    const index: BM25Index

    /** Exactly the registered tools are indexed. */
    ghost predicate Valid()
      reads this, index
    {
      TableOk(index.docs, index.df) && forall name :: name in tools <==> name in Ids(index.docs)
    }

    constructor (letters: Alphabet)
      ensures Valid() && tools == map[] && index.docs == [] && index.letters == letters && fresh(index)
    {
      tools := map[];
      index := new BM25Index(letters);
    }

    /** Registering a name again replaces the tool, but adds a second search document. */
    method Register(name: string, tool: Tool)
      requires Valid()
      modifies this, index
      ensures Valid() && tools == old(tools)[name := tool]
      ensures index.docs == old(index.docs) + [Doc(name, Tokenize(index.letters, name + " " + tool.description))]
      ensures Distinct(Ids(index.docs)) <==> Distinct(old(Ids(index.docs))) && name !in old(tools)
    {
      DistinctAppend(Ids(index.docs), name);
      tools := tools[name := tool];
      var text := name + " " + tool.description;
      index.Insert(name, text);
      assert Ids(index.docs) == old(Ids(index.docs)) + [name];
    }

    method RegisterIfAbsent(name: string, tool: Tool) returns (inserted: bool)
      requires Valid()
      modifies this, index
      ensures Valid() && inserted == (name !in old(tools))
      ensures if inserted
              then tools == old(tools)[name := tool]
                   && index.docs == old(index.docs) + [DocOf(index.letters, name, tool)]
              else tools == old(tools) && index.docs == old(index.docs)
      ensures Distinct(Ids(index.docs)) <==> Distinct(old(Ids(index.docs)))
    {
      if name in tools { return false; }
      Register(name, tool);
      return true;
    }

    /** No hit of the index is lost on the way to its tool. */
    method Search(ln: real -> real, query: string, limit: nat) returns (r: seq<(string, real)>)
      requires Valid() && LogLike(ln)
      ensures r == Found(ln, index.docs, index.df, QueryTokens(index.letters, query), limit)
      ensures forall i | 0 <= i < |r| :: r[i].0 in tools
    {
      var hits := index.Search(ln, query, limit);
      BestAreExactly(ln, index.docs, index.df, QueryTokens(index.letters, query), limit);
      r := WithTools(hits);
    }

    /** Looks up each hit's tool. */
    method WithTools(hits: seq<Scored>) returns (r: seq<(string, real)>)
      requires Valid() && forall hit | hit in hits :: hit.index < |index.docs|
      ensures r == Named(index.docs, hits) && forall i | 0 <= i < |r| :: r[i].0 in tools
    {
      r := [];
      for i := 0 to |hits|
        invariant |r| == i
        invariant forall k | 0 <= k < i :: r[k] == Named(index.docs, hits)[k] && r[k].0 in tools
      {
        assert hits[i] in hits;
        var name := index.docs[hits[i].index].id;
        assert Ids(index.docs)[hits[i].index] == name;
        if name in tools { r := r + [(name, hits[i].score)]; }
      }
    }

    /** A copy holds exactly the named tools, and indexes each as often as it is named. */
    method CopyNamedTools(names: seq<string>, excludeSpawner: bool) returns (copy: ToolRegistry)
      requires Valid()
      ensures fresh(copy) && fresh(copy.index) && copy.Valid() && copy.index.letters == index.letters
      ensures copy.index.docs == Copied(index.letters, tools, names, excludeSpawner)
      ensures forall name :: name in copy.tools <==> name in names && Kept(tools, excludeSpawner, name)
      ensures forall name | name in copy.tools :: name in tools && copy.tools[name] == tools[name]
      ensures excludeSpawner ==> "spawn_subagent" !in copy.tools
    {
      copy := new ToolRegistry(index.letters);
      for i := 0 to |names|
        invariant fresh(copy) && fresh(copy.index) && copy.Valid() && copy.index.letters == index.letters
        invariant copy.index.docs == Copied(index.letters, tools, names[..i], excludeSpawner)
        invariant forall name | name in copy.tools :: name in tools && copy.tools[name] == tools[name]
      {
        assert names[..i + 1][..i] == names[..i];
        var name := names[i];
        if !(excludeSpawner && name == "spawn_subagent") && name in tools {
          copy.Register(name, tools[name]);
        }
      }
      assert names[..|names|] == names;
      CopiedHasAll(index.letters, tools, names, excludeSpawner);
    }
  }

  lemma DistinctAppend(names: seq<string>, name: string)
    ensures Distinct(names + [name]) <==> Distinct(names) && name !in names
  {
    var all := names + [name];
    if Distinct(all) {
      forall i, j | 0 <= i < j < |names| ensures names[i] != names[j] {
        assert all[i] == names[i] && all[j] == names[j];
      }
      forall i | 0 <= i < |names| ensures names[i] != name { assert all[i] == names[i] && all[|names|] == name; }
    }
  }

  // ---- copies ----

  lemma {:induction false} CopiedOne(letters: Alphabet, tools: Tools, names: seq<string>, excludeSpawner: bool)
    requires names != []
    ensures var before, last := Copied(letters, tools, names[..|names| - 1], excludeSpawner), names[|names| - 1];
      Ids(Copied(letters, tools, names, excludeSpawner))
        == Ids(before) + if Kept(tools, excludeSpawner, last) then [last] else []
  {
  }

  lemma {:induction false} CopiedHas(letters: Alphabet, tools: Tools, names: seq<string>, excludeSpawner: bool,
        name: string)
    ensures name in Ids(Copied(letters, tools, names, excludeSpawner)) <==>
      name in names && Kept(tools, excludeSpawner, name)
  {
    if names != [] {
      CopiedHas(letters, tools, names[..|names| - 1], excludeSpawner, name);
      CopiedOne(letters, tools, names, excludeSpawner);
      assert names == names[..|names| - 1] + [names[|names| - 1]];
    }
  }

  lemma {:induction false} CopiedHasAll(letters: Alphabet, tools: Tools, names: seq<string>, excludeSpawner: bool)
    ensures forall name :: name in Ids(Copied(letters, tools, names, excludeSpawner)) <==>
      name in names && Kept(tools, excludeSpawner, name)
  {
    forall name ensures name in Ids(Copied(letters, tools, names, excludeSpawner)) <==>
        name in names && Kept(tools, excludeSpawner, name)
    {
      CopiedHas(letters, tools, names, excludeSpawner, name);
    }
  }

  /** The names that are kept are pairwise different. */
  predicate KeptOnce(tools: Tools, names: seq<string>, excludeSpawner: bool) {
    forall i, j | 0 <= i < j < |names| && Kept(tools, excludeSpawner, names[i]) :: names[i] != names[j]
  }

  lemma KeptOnceAppend(tools: Tools, names: seq<string>, excludeSpawner: bool)
    requires names != []
    ensures var init, last := names[..|names| - 1], names[|names| - 1];
      KeptOnce(tools, names, excludeSpawner) <==>
        KeptOnce(tools, init, excludeSpawner) && !(Kept(tools, excludeSpawner, last) && last in init)
  {
    var init, last := names[..|names| - 1], names[|names| - 1];
    if KeptOnce(tools, names, excludeSpawner) {
      forall i, j | 0 <= i < j < |init| && Kept(tools, excludeSpawner, init[i]) ensures init[i] != init[j] {
        assert names[i] == init[i] && names[j] == init[j];
      }
      forall i | 0 <= i < |init| && Kept(tools, excludeSpawner, last) ensures init[i] != last {
        assert names[i] == init[i];
      }
    }
  }

  /** A copy indexes each of its tools once exactly when no tool it keeps is named twice. */
  lemma {:induction false} CopyIsDistinctExactly(letters: Alphabet, tools: Tools, names: seq<string>,
        excludeSpawner: bool)
    ensures Distinct(Ids(Copied(letters, tools, names, excludeSpawner))) <==> KeptOnce(tools, names, excludeSpawner)
  {
    if names != [] {
      var init, last := names[..|names| - 1], names[|names| - 1];
      CopyIsDistinctExactly(letters, tools, init, excludeSpawner);
      CopiedOne(letters, tools, names, excludeSpawner);
      KeptOnceAppend(tools, names, excludeSpawner);
      CopiedHas(letters, tools, init, excludeSpawner, last);
      DistinctAppend(Ids(Copied(letters, tools, init, excludeSpawner)), last);
      var ids := Ids(Copied(letters, tools, init, excludeSpawner));
      assert ids + [] == ids;
    }
  }

  // ---- names that are found twice ----

  predicate Twice(found: seq<(string, real)>, name: string) {
    exists i, j | 0 <= i < j < |found| :: found[i].0 == name && found[j].0 == name
  }

  /** Two documents under one name, both among the best hits. */
  predicate BestTwice(ln: real -> real, docs: seq<Doc>, df: Table, query: seq<string>, limit: nat, name: string,
                      d: nat, e: nat) {
    && d < e < |docs| && docs[d].id == name && docs[e].id == name
    && AmongBest(ln, docs, df, query, limit, d) && AmongBest(ln, docs, df, query, limit, e)
  }

  lemma TwiceFromBest(ln: real -> real, docs: seq<Doc>, df: Table, query: seq<string>, limit: nat, name: string,
        d: nat, e: nat)
    requires LogLike(ln) && TableOk(docs, df) && BestTwice(ln, docs, df, query, limit, name, d, e)
    ensures Twice(Found(ln, docs, df, query, limit), name)
  {
    var best, found := Best(ln, docs, df, query, limit), Found(ln, docs, df, query, limit);
    BestAreExactly(ln, docs, df, query, limit);
    var a, b := HitOf(ln, docs, df, query, d), HitOf(ln, docs, df, query, e);
    assert a in best && b in best;
    var i :| 0 <= i < |best| && best[i] == a;
    var j :| 0 <= j < |best| && best[j] == b;
    assert found[i].0 == name && found[j].0 == name && i != j;
  }

  lemma BestFromTwice(ln: real -> real, docs: seq<Doc>, df: Table, query: seq<string>, limit: nat, name: string,
        i: nat, j: nat)
    requires LogLike(ln) && TableOk(docs, df) && i < j < |Found(ln, docs, df, query, limit)|
    requires Found(ln, docs, df, query, limit)[i].0 == name && Found(ln, docs, df, query, limit)[j].0 == name
    ensures exists d, e :: BestTwice(ln, docs, df, query, limit, name, d, e)
  {
    var best := Best(ln, docs, df, query, limit);
    BestAreExactly(ln, docs, df, query, limit);
    var a, b := best[i], best[j];
    assert a in best && b in best && Before(a, b);
    assert a == HitOf(ln, docs, df, query, a.index) && b == HitOf(ln, docs, df, query, b.index);
    assert BestTwice(ln, docs, df, query, limit, name, Min(a.index, b.index), Max(a.index, b.index));
  }

  /** A name is found twice exactly when two documents under it are among the best. */
  lemma FoundTwiceExactly(ln: real -> real, docs: seq<Doc>, df: Table, query: seq<string>, limit: nat, name: string)
    requires LogLike(ln) && TableOk(docs, df)
    ensures Twice(Found(ln, docs, df, query, limit), name) <==>
      exists d, e :: BestTwice(ln, docs, df, query, limit, name, d, e)
  {
    var found := Found(ln, docs, df, query, limit);
    if i, j :| 0 <= i < j < |found| && found[i].0 == name && found[j].0 == name {
      BestFromTwice(ln, docs, df, query, limit, name, i, j);
    }
    if d, e :| BestTwice(ln, docs, df, query, limit, name, d, e) {
      TwiceFromBest(ln, docs, df, query, limit, name, d, e);
    }
  }

  /** With each name indexed once, no tool is found twice. */
  lemma DistinctNamesAreFoundOnce(ln: real -> real, docs: seq<Doc>, df: Table, query: seq<string>, limit: nat,
        name: string)
    requires LogLike(ln) && TableOk(docs, df) && Distinct(Ids(docs))
    ensures !Twice(Found(ln, docs, df, query, limit), name)
  {
    FoundTwiceExactly(ln, docs, df, query, limit, name);
    forall d, e | 0 <= d < e < |docs| ensures docs[d].id != docs[e].id {
      assert Ids(docs)[d] == docs[d].id && Ids(docs)[e] == docs[e].id;
    }
  }

  /** A tool that a copy names twice is found twice, by any query that finds it at all. */
  lemma {:induction false} CopyFindsAToolTwice(ln: real -> real, letters: Alphabet, tools: Tools, name: string,
        df: Table, query: seq<string>, limit: nat)
    requires name in tools && limit >= 2 && LogLike(ln)
    requires Shares(query, DocOf(letters, name, tools[name]).tokens)
    requires TableOk(Copied(letters, tools, [name, name], false), df)
    ensures Twice(Found(ln, Copied(letters, tools, [name, name], false), df, query, limit), name)
  {
    var docs, doc := Copied(letters, tools, [name, name], false), DocOf(letters, name, tools[name]);
    assert [name, name][..1] == [name] && [name][..0] == [];
    assert Copied(letters, tools, [name], false) == [doc];
    assert docs == [doc, doc];
    forall d | d == 0 || d == 1 ensures AmongBest(ln, docs, df, query, limit, d) {
      assert Ahead(ln, docs, df, query, d) <= {1 - d};
      if Ahead(ln, docs, df, query, d) != {} {
        assert Ahead(ln, docs, df, query, d) == {1 - d};
      }
    }
    assert BestTwice(ln, docs, df, query, limit, name, 0, 1);
    FoundTwiceExactly(ln, docs, df, query, limit, name);
  }
}
