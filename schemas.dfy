/** The parameter schema of a `Params` class: the two ordered tables
    name -> default (`_pdefs`) and name -> doc (`_pdocs`), how a subclass
    derives its tables from its bases and its own declaration tuples
    (`Params._subclass`), and the class-level introspection methods. */
module Schemas {
  import opened Wrappers
  import opened OrderedDicts

  /** One declaration tuple `(name, default[, doc, ...])`; `more` holds the
      elements after the default. */
  datatype Decl<V> = Decl(name: string, default: V, more: seq<string>) {
    /** The third element, or `''` for a 2-tuple. */
    function Doc(): (r: string)
      ensures |more| == 0 ==> r == ""
      ensures |more| > 0 ==> r == more[0]
    {
      if |more| > 0 then more[0] else ""
    }
  }

  /** A `Params` class: its name and its two tables. */
  datatype Schema<V> = Schema(name: string, defs: ODict<V>, docs: ODict<string>) {

    /** Both tables are well formed and list the same names in the same order. */
    ghost predicate Valid() {
      defs.Valid() && docs.Valid() && defs.keys == docs.keys
    }

    /** `_default(pname)`: `_pdefs[pname]`, a KeyError for an undeclared name. */
    function Default(pname: string): (r: Result<V>)
      ensures r.Err? ==> r.error == KeyError
      ensures Valid() ==> (r.Ok? <==> pname in defs.keys)
      ensures r.Ok? ==> defs.Get(pname) == Some(r.value)
    {
      if pname in defs.vals then Ok(defs.vals[pname]) else Err(KeyError)
    }

    /** `_doc(pname)`: `_pdocs[pname]`, a KeyError for an undeclared name. */
    function Doc(pname: string): (r: Result<string>)
      ensures r.Err? ==> r.error == KeyError
      ensures Valid() ==> (r.Ok? <==> pname in defs.keys)
      ensures r.Ok? ==> docs.Get(pname) == Some(r.value)
    {
      if pname in docs.vals then Ok(docs.vals[pname]) else Err(KeyError)
    }

    /** `_names()`: the declared names, each once, in declaration order. */
    function Names(): (r: seq<string>)
      ensures Valid() ==> Distinct(r)
      ensures Valid() ==> forall n :: n in r <==> Default(n).Ok? && Doc(n).Ok?
    {
      defs.keys
    }

    /** `_defaults()`: the defaults, aligned with `Names()`. */
    function Defaults(): (r: seq<V>)
      requires Valid()
      ensures |r| == |Names()|
      ensures forall i :: 0 <= i < |r| ==> Default(Names()[i]) == Ok(r[i])
    {
      Column(defs.keys, defs.vals)
    }

    /** `_docs()`: the values of the doc table in its own order, which is
        the order of `Names()`. */
    function Docs(): (r: seq<string>)
      requires Valid()
      ensures |r| == |Names()|
      ensures forall i :: 0 <= i < |r| ==> Doc(Names()[i]) == Ok(r[i])
    {
      Column(docs.keys, docs.vals)
    }

    /** `_kwdefaults()`: a copy of the default table. */
    function KwDefaults(): (r: ODict<V>)
      requires Valid()
      ensures r.Valid() && r.keys == Names()
      ensures forall n :: n in r.vals ==> Default(n) == Ok(r.vals[n])
    {
      defs
    }

    /** `_kwdocs()`: a copy of the doc table. */
    function KwDocs(): (r: ODict<string>)
      requires Valid()
      ensures r.Valid() && r.keys == Names()
      ensures forall n :: n in r.vals ==> Doc(n) == Ok(r.vals[n])
    {
      docs
    }
  }

  /** `Params` itself: no parameters. */
  function Root<V>(): (s: Schema<V>)
    ensures s.Valid() && s.Names() == []
  {
    Schema("Params", Empty(), Empty())
  }

  ghost predicate AllValid<V>(bases: seq<Schema<V>>) {
    forall i :: 0 <= i < |bases| ==> bases[i].Valid()
  }

  function DefTables<V>(bases: seq<Schema<V>>): seq<ODict<V>> {
    seq(|bases|, i requires 0 <= i < |bases| => bases[i].defs)
  }

  function DocTables<V>(bases: seq<Schema<V>>): seq<ODict<string>> {
    seq(|bases|, i requires 0 <= i < |bases| => bases[i].docs)
  }

  /** The entries of `tables`, table after table, as `update` visits them. */
  function Layered<W>(tables: seq<ODict<W>>): seq<(string, W)>
    requires forall i :: 0 <= i < |tables| ==> tables[i].Valid()
  {
    if tables == [] then []
    else Layered(tables[..|tables| - 1]) + tables[|tables| - 1].Items()
  }

  /** `t` updated with each table of `tables` in turn. */
  function UpdateAll<W>(t: ODict<W>, tables: seq<ODict<W>>): (r: ODict<W>)
    requires t.Valid()
    requires forall i :: 0 <= i < |tables| ==> tables[i].Valid()
    ensures r.Valid()
  {
    if tables == [] then t
    else Update(UpdateAll(t, tables[..|tables| - 1]), tables[|tables| - 1])
  }

  /** Updating with each table in turn is assigning their entries one after
      the other. */
  lemma {:induction false} UpdateAllLayered<W>(t: ODict<W>, tables: seq<ODict<W>>)
    requires t.Valid()
    requires forall i :: 0 <= i < |tables| ==> tables[i].Valid()
    ensures UpdateAll(t, tables) == SetAll(t, Layered(tables))
  {
    if tables != [] {
      var p := tables[..|tables| - 1];
      UpdateAllLayered(t, p);
      SetAllAppend(t, Layered(p), tables[|tables| - 1].Items());
    }
  }

  /** The assignments `pdefs[name] = default` of the local tuples. */
  function DefItems<V>(decls: seq<Decl<V>>): (r: seq<(string, V)>)
    ensures |r| == |decls|
  {
    if decls == [] then []
    else DefItems(decls[..|decls| - 1]) + [(decls[|decls| - 1].name, decls[|decls| - 1].default)]
  }

  /** The assignments `pdocs[name] = doc` of the local tuples. */
  function DocItems<V>(decls: seq<Decl<V>>): (r: seq<(string, string)>)
    ensures |r| == |decls|
  {
    if decls == [] then []
    else DocItems(decls[..|decls| - 1]) + [(decls[|decls| - 1].name, decls[|decls| - 1].Doc())]
  }

  /** The names declared by local tuples, in order (repeats included). */
  function DeclNames<V>(decls: seq<Decl<V>>): seq<string> {
    seq(|decls|, i requires 0 <= i < |decls| => decls[i].name)
  }

  /** The names of the other bases, base after base (repeats included). */
  function BaseNames<V>(bases: seq<Schema<V>>): seq<string> {
    if bases == [] then [] else BaseNames(bases[..|bases| - 1]) + bases[|bases| - 1].defs.keys
  }

  /** The tables of `cls._subclass(clsname, newparams, *otherbases)`: a copy of
      the tables of `cls`, updated with each other base in turn, then assigned
      each local tuple in turn. */
  function Derived<V>(cls: Schema<V>, clsname: string, newparams: seq<Decl<V>>,
                      otherbases: seq<Schema<V>>): (r: Schema<V>)
    requires cls.Valid() && AllValid(otherbases)
    ensures r.Valid()
  {
    DerivedFlat(cls, newparams, otherbases);
    DerivedKeysAgree(cls, newparams, otherbases);
    Schema(cls.name + "_" + clsname,
           SetAll(UpdateAll(cls.defs, DefTables(otherbases)), DefItems(newparams)),
           SetAll(UpdateAll(cls.docs, DocTables(otherbases)), DocItems(newparams)))
  }

  /** `_subclass` as the source runs it: two loops updating local copies. */
  method Subclass<V>(cls: Schema<V>, clsname: string, newparams: seq<Decl<V>>,
                     otherbases: seq<Schema<V>>) returns (newcls: Schema<V>)
    requires cls.Valid() && AllValid(otherbases)
    ensures newcls == Derived(cls, clsname, newparams, otherbases)
  {
    ghost var deftabs, doctabs := DefTables(otherbases), DocTables(otherbases);
    var pdefs := cls.defs;
    var pdocs := cls.docs;
    for i := 0 to |otherbases|
      invariant pdefs == UpdateAll(cls.defs, deftabs[..i])
      invariant pdocs == UpdateAll(cls.docs, doctabs[..i])
    {
      var otherbase := otherbases[i];
      UpdateAllStep(cls.defs, deftabs, i);
      UpdateAllStep(cls.docs, doctabs, i);
      pdefs := Update(pdefs, otherbase.defs);
      pdocs := Update(pdocs, otherbase.docs);
    }
    assert deftabs[..|otherbases|] == deftabs && doctabs[..|otherbases|] == doctabs;
    ghost var basedefs, basedocs := pdefs, pdocs;
    for i := 0 to |newparams|
      invariant pdefs == SetAll(basedefs, DefItems(newparams[..i]))
      invariant pdocs == SetAll(basedocs, DocItems(newparams[..i]))
    {
      var np := newparams[i];
      AssignStep(basedefs, basedocs, newparams, i);
      pdefs := pdefs.SetItem(np.name, np.default);
      pdocs := pdocs.SetItem(np.name, np.Doc());
    }
    assert newparams[..|newparams|] == newparams;
    newcls := Schema(cls.name + "_" + clsname, pdefs, pdocs);
  }

  /** One more other base in the first loop of `_subclass`. */
  lemma UpdateAllStep<W>(t: ODict<W>, tables: seq<ODict<W>>, i: nat)
    requires t.Valid()
    requires forall j :: 0 <= j < |tables| ==> tables[j].Valid()
    requires i < |tables|
    ensures UpdateAll(t, tables[..i + 1]) == Update(UpdateAll(t, tables[..i]), tables[i])
  {
    assert tables[..i + 1][..i] == tables[..i];
  }

  /** One more local tuple in the second loop of `_subclass`. */
  lemma AssignStep<V>(defs: ODict<V>, docs: ODict<string>, decls: seq<Decl<V>>, i: nat)
    requires defs.Valid() && docs.Valid()
    requires i < |decls|
    ensures SetAll(defs, DefItems(decls[..i + 1]))
         == SetAll(defs, DefItems(decls[..i])).SetItem(decls[i].name, decls[i].default)
    ensures SetAll(docs, DocItems(decls[..i + 1]))
         == SetAll(docs, DocItems(decls[..i])).SetItem(decls[i].name, decls[i].Doc())
  {
    assert decls[..i + 1][..i] == decls[..i];
  }

  /** The derived tables as one sequence of assignments over the primary's. */
  lemma DerivedFlat<V>(cls: Schema<V>, newparams: seq<Decl<V>>, otherbases: seq<Schema<V>>)
    requires cls.Valid() && AllValid(otherbases)
    ensures SetAll(UpdateAll(cls.defs, DefTables(otherbases)), DefItems(newparams))
         == SetAll(cls.defs, Layered(DefTables(otherbases)) + DefItems(newparams))
    ensures SetAll(UpdateAll(cls.docs, DocTables(otherbases)), DocItems(newparams))
         == SetAll(cls.docs, Layered(DocTables(otherbases)) + DocItems(newparams))
  {
    UpdateAllLayered(cls.defs, DefTables(otherbases));
    UpdateAllLayered(cls.docs, DocTables(otherbases));
    SetAllAppend(cls.defs, Layered(DefTables(otherbases)), DefItems(newparams));
    SetAllAppend(cls.docs, Layered(DocTables(otherbases)), DocItems(newparams));
  }

  // ---------------------------------------------------------------------------
  // Reference definitions of precedence

  /** The last local tuple declaring `n`. */
  function LastDecl<V>(decls: seq<Decl<V>>, n: string): (r: Option<Decl<V>>)
    ensures r.Some? ==> r.value in decls && r.value.name == n
    ensures r.None? <==> n !in DeclNames(decls)
  {
    if decls == [] then None
    else if decls[|decls| - 1].name == n then
      assert DeclNames(decls)[|decls| - 1] == n;
      Some(decls[|decls| - 1])
    else
      assert DeclNames(decls) == DeclNames(decls[..|decls| - 1]) + [decls[|decls| - 1].name];
      LastDecl(decls[..|decls| - 1], n)
  }

  /** The rightmost other base declaring `n`. */
  function LastBase<V>(bases: seq<Schema<V>>, n: string): (r: Option<Schema<V>>)
    ensures r.Some? ==> r.value in bases && n in r.value.defs.vals
    ensures r.None? <==> forall b :: b in bases ==> n !in b.defs.vals
  {
    if bases == [] then None
    else if n in bases[|bases| - 1].defs.vals then Some(bases[|bases| - 1])
    else
      assert forall b :: b in bases ==> b in bases[..|bases| - 1] || b == bases[|bases| - 1];
      LastBase(bases[..|bases| - 1], n)
  }

  /** The default a derived class gives `n`: a local tuple beats every other
      base, a later other base beats an earlier one, and every other base
      beats the primary base. */
  function ResolveDefault<V>(cls: Schema<V>, newparams: seq<Decl<V>>, otherbases: seq<Schema<V>>,
                             n: string): (r: Option<V>)
    ensures r.Some? <==> n in DeclNames(newparams) || (exists b :: b in otherbases && n in b.defs.vals)
                         || n in cls.defs.vals
  {
    match LastDecl(newparams, n)
    case Some(d) => Some(d.default)
    case None =>
      match LastBase(otherbases, n)
      case Some(b) => b.defs.Get(n)
      case None => cls.defs.Get(n)
  }

  /** The doc a derived class gives `n`, by the same precedence. */
  function ResolveDoc<V>(cls: Schema<V>, newparams: seq<Decl<V>>, otherbases: seq<Schema<V>>,
                         n: string): (r: Option<string>)
    requires cls.Valid() && AllValid(otherbases)
    ensures r.Some? <==> ResolveDefault(cls, newparams, otherbases, n).Some?
  {
    match LastDecl(newparams, n)
    case Some(d) => Some(d.Doc())
    case None =>
      match LastBase(otherbases, n)
      case Some(b) => b.docs.Get(n)
      case None => cls.docs.Get(n)
  }

  // ---------------------------------------------------------------------------
  // Lemmas about the layered entries

  lemma NamesAppend<W>(a: seq<(string, W)>, b: seq<(string, W)>)
    ensures Names(a + b) == Names(a) + Names(b)
  {
  }

  /** Updating with the other bases assigns each name the entry of the
      rightmost base declaring it, in both tables, and visits the same names
      in both. */
  lemma {:induction false} LayeredBases<V>(bases: seq<Schema<V>>, n: string)
    requires AllValid(bases)
    ensures LastFor(Layered(DefTables(bases)), n)
         == if LastBase(bases, n).Some? then LastBase(bases, n).value.defs.Get(n) else None
    ensures LastFor(Layered(DocTables(bases)), n)
         == if LastBase(bases, n).Some? then LastBase(bases, n).value.docs.Get(n) else None
    ensures Names(Layered(DefTables(bases))) == BaseNames(bases)
    ensures Names(Layered(DocTables(bases))) == BaseNames(bases)
    decreases |bases|
  {
    if bases != [] {
      var p := bases[..|bases| - 1];
      var b := bases[|bases| - 1];
      assert DefTables(bases)[..|bases| - 1] == DefTables(p);
      assert DocTables(bases)[..|bases| - 1] == DocTables(p);
      LayeredBases(p, n);
      LastForAppend(Layered(DefTables(p)), b.defs.Items(), n);
      LastForAppend(Layered(DocTables(p)), b.docs.Items(), n);
      LastForItemsOf(b.defs.keys, b.defs.vals, n);
      LastForItemsOf(b.docs.keys, b.docs.vals, n);
      NamesAppend(Layered(DefTables(p)), b.defs.Items());
      NamesAppend(Layered(DocTables(p)), b.docs.Items());
      assert Names(b.defs.Items()) == b.defs.keys;
      assert Names(b.docs.Items()) == b.docs.keys;
    }
  }

  /** The local tuples assign each name the default and doc of its last tuple. */
  lemma {:induction false} LocalItems<V>(decls: seq<Decl<V>>, n: string)
    ensures LastFor(DefItems(decls), n)
         == if LastDecl(decls, n).Some? then Some(LastDecl(decls, n).value.default) else None
    ensures LastFor(DocItems(decls), n)
         == if LastDecl(decls, n).Some? then Some(LastDecl(decls, n).value.Doc()) else None
    decreases |decls|
  {
    if decls != [] {
      var p := decls[..|decls| - 1];
      var d := decls[|decls| - 1];
      assert (DefItems(p) + [(d.name, d.default)])[..|decls| - 1] == DefItems(p);
      assert (DocItems(p) + [(d.name, d.Doc())])[..|decls| - 1] == DocItems(p);
      LocalItems(p, n);
    }
  }

  /** Both tables of a derived class receive the same names in the same order. */
  lemma DerivedKeysAgree<V>(cls: Schema<V>, newparams: seq<Decl<V>>, otherbases: seq<Schema<V>>)
    requires cls.Valid() && AllValid(otherbases)
    ensures SetAll(cls.defs, Layered(DefTables(otherbases)) + DefItems(newparams)).keys
         == SetAll(cls.docs, Layered(DocTables(otherbases)) + DocItems(newparams)).keys
    ensures SetAll(cls.defs, Layered(DefTables(otherbases)) + DefItems(newparams)).keys
         == cls.defs.keys + FirstSeen(BaseNames(otherbases) + DeclNames(newparams), cls.defs.keys)
  {
    var lefs, locs := Layered(DefTables(otherbases)), Layered(DocTables(otherbases));
    SetAllKeys(cls.defs, lefs + DefItems(newparams));
    SetAllKeys(cls.docs, locs + DocItems(newparams));
    LayeredBases(otherbases, "");
    NamesAppend(lefs, DefItems(newparams));
    NamesAppend(locs, DocItems(newparams));
    LocalNames(newparams);
  }

  /** Both kinds of local assignment visit the declared names in order. */
  lemma {:induction false} LocalNames<V>(decls: seq<Decl<V>>)
    ensures Names(DefItems(decls)) == DeclNames(decls)
    ensures Names(DocItems(decls)) == DeclNames(decls)
    decreases |decls|
  {
    if decls != [] {
      var p := decls[..|decls| - 1];
      var d := decls[|decls| - 1];
      LocalNames(p);
      NamesAppend(DefItems(p), [(d.name, d.default)]);
      NamesAppend(DocItems(p), [(d.name, d.Doc())]);
      assert DeclNames(decls) == DeclNames(p) + [d.name];
    }
  }

  // ---------------------------------------------------------------------------
  // What a derived schema holds

  /** Merge precedence for defaults: primary base < other bases, left to
      right < local tuples. */
  lemma DerivedDefault<V>(cls: Schema<V>, clsname: string, newparams: seq<Decl<V>>,
                          otherbases: seq<Schema<V>>, n: string)
    requires cls.Valid() && AllValid(otherbases)
    ensures Derived(cls, clsname, newparams, otherbases).defs.Get(n)
         == ResolveDefault(cls, newparams, otherbases, n)
  {
    var lefs := Layered(DefTables(otherbases));
    DerivedFlat(cls, newparams, otherbases);
    SetAllGet(cls.defs, lefs + DefItems(newparams), n);
    LastForAppend(lefs, DefItems(newparams), n);
    LayeredBases(otherbases, n);
    LocalItems(newparams, n);
  }

  /** Merge precedence for docs, the same as for defaults. */
  lemma DerivedDoc<V>(cls: Schema<V>, clsname: string, newparams: seq<Decl<V>>,
                      otherbases: seq<Schema<V>>, n: string)
    requires cls.Valid() && AllValid(otherbases)
    ensures Derived(cls, clsname, newparams, otherbases).docs.Get(n)
         == ResolveDoc(cls, newparams, otherbases, n)
  {
    var locs := Layered(DocTables(otherbases));
    DerivedFlat(cls, newparams, otherbases);
    SetAllGet(cls.docs, locs + DocItems(newparams), n);
    LastForAppend(locs, DocItems(newparams), n);
    LayeredBases(otherbases, n);
    LocalItems(newparams, n);
  }

  /** Key order: the primary base's names come first in their order, then the
      names new to it, in the order the other bases and then the local tuples
      first mention them. */
  lemma DerivedOrder<V>(cls: Schema<V>, clsname: string, newparams: seq<Decl<V>>,
                        otherbases: seq<Schema<V>>)
    requires cls.Valid() && AllValid(otherbases)
    ensures var s := Derived(cls, clsname, newparams, otherbases);
      && s.Names() == cls.Names() + FirstSeen(BaseNames(otherbases) + DeclNames(newparams), cls.Names())
      && cls.Names() <= s.Names()
      && s.name == cls.name + "_" + clsname
  {
    DerivedFlat(cls, newparams, otherbases);
    DerivedKeysAgree(cls, newparams, otherbases);
  }

  /** With no other bases and distinct local names, the derived names are
      the primary base's followed by the local names it lacks, in
      declaration order. */
  lemma LocalOrder<V>(cls: Schema<V>, clsname: string, newparams: seq<Decl<V>>)
    requires cls.Valid() && Distinct(DeclNames(newparams))
    ensures Derived(cls, clsname, newparams, []).Names() == cls.Names() + Filter(DeclNames(newparams), cls.Names())
  {
    DerivedOrder(cls, clsname, newparams, []);
    assert BaseNames<V>([]) + DeclNames(newparams) == DeclNames(newparams);
    FirstSeenDistinct(DeclNames(newparams), cls.Names());
  }

  /** With no local tuples and one other base that shares no name with the
      primary base, the derived class lists the primary's names and then the
      other base's. */
  lemma DisjointOtherBase<V>(cls: Schema<V>, clsname: string, other: Schema<V>)
    requires cls.Valid() && other.Valid()
    requires forall k :: k in other.Names() ==> k !in cls.Names()
    ensures Derived(cls, clsname, [], [other]).Names() == cls.Names() + other.Names()
  {
    var s := Derived(cls, clsname, [], [other]);
    assert s.Names() == cls.Names() + FirstSeen(BaseNames([other]) + DeclNames<V>([]), cls.Names()) by {
      DerivedOrder(cls, clsname, [], [other]);
    }
    assert BaseNames([other]) + DeclNames<V>([]) == other.Names();
    assert FirstSeen(other.Names(), cls.Names()) == other.Names() by {
      FirstSeenDistinct(other.Names(), cls.Names());
      FilterKeepsAll(other.Names(), cls.Names());
    }
  }

  /** With no local tuples and one other base, each entry comes from the
      other base when it declares the name and from the primary otherwise. */
  lemma OneOtherBase<V>(cls: Schema<V>, clsname: string, other: Schema<V>, n: string)
    requires cls.Valid() && other.Valid()
    ensures var s := Derived(cls, clsname, [], [other]);
      && s.Default(n) == (if n in other.defs.vals then other else cls).Default(n)
      && s.Doc(n) == (if n in other.defs.vals then other else cls).Doc(n)
  {
    DerivedDefault(cls, clsname, [], [other], n);
    DerivedDoc(cls, clsname, [], [other], n);
    assert DeclNames<V>([]) == [];
  }

  /** A name is declared by the derived class exactly when the primary base,
      some other base or some local tuple declares it. */
  lemma DerivedDeclares<V>(cls: Schema<V>, clsname: string, newparams: seq<Decl<V>>,
                           otherbases: seq<Schema<V>>, n: string)
    requires cls.Valid() && AllValid(otherbases)
    ensures Derived(cls, clsname, newparams, otherbases).Default(n).Ok?
        <==> cls.Default(n).Ok? || n in DeclNames(newparams)
             || exists b :: b in otherbases && n in b.defs.vals
  {
    DerivedDefault(cls, clsname, newparams, otherbases, n);
  }

  /** Local override: the last tuple declaring a name gives it its default and
      its doc, `''` when the tuple has no third element. */
  lemma LocalOverride<V>(cls: Schema<V>, clsname: string, newparams: seq<Decl<V>>,
                         otherbases: seq<Schema<V>>, i: nat)
    requires cls.Valid() && AllValid(otherbases)
    requires i < |newparams|
    requires forall j :: i < j < |newparams| ==> newparams[j].name != newparams[i].name
    ensures var s := Derived(cls, clsname, newparams, otherbases);
      && s.Default(newparams[i].name) == Ok(newparams[i].default)
      && s.Doc(newparams[i].name) == Ok(if |newparams[i].more| > 0 then newparams[i].more[0] else "")
  {
    var n := newparams[i].name;
    LastDeclAt(newparams, i);
    DerivedDefault(cls, clsname, newparams, otherbases, n);
    DerivedDoc(cls, clsname, newparams, otherbases, n);
  }

  /** The last tuple for a name is the one no later tuple redeclares. */
  lemma {:induction false} LastDeclAt<V>(decls: seq<Decl<V>>, i: nat)
    requires i < |decls|
    requires forall j :: i < j < |decls| ==> decls[j].name != decls[i].name
    ensures LastDecl(decls, decls[i].name) == Some(decls[i])
    decreases |decls|
  {
    if i < |decls| - 1 {
      LastDeclAt(decls[..|decls| - 1], i);
    }
  }

  /** Inheritance: a name that no other base and no local tuple declares keeps
      the primary base's default and doc. */
  lemma Inherited<V>(cls: Schema<V>, clsname: string, newparams: seq<Decl<V>>,
                     otherbases: seq<Schema<V>>, n: string)
    requires cls.Valid() && AllValid(otherbases)
    requires n !in DeclNames(newparams)
    requires forall b :: b in otherbases ==> n !in b.defs.vals
    ensures var s := Derived(cls, clsname, newparams, otherbases);
      s.Default(n) == cls.Default(n) && s.Doc(n) == cls.Doc(n)
  {
    DerivedDefault(cls, clsname, newparams, otherbases, n);
    DerivedDoc(cls, clsname, newparams, otherbases, n);
  }

  /** Elements after the third of a tuple are ignored: two declaration lists
      that agree on name, default and doc give the same class. */
  lemma ExtraElementsIgnored<V>(cls: Schema<V>, clsname: string, newparams: seq<Decl<V>>,
                                trimmed: seq<Decl<V>>, otherbases: seq<Schema<V>>)
    requires cls.Valid() && AllValid(otherbases)
    requires |trimmed| == |newparams|
    requires forall i :: 0 <= i < |newparams| ==>
      trimmed[i].name == newparams[i].name && trimmed[i].default == newparams[i].default
      && trimmed[i].more == newparams[i].more[..if |newparams[i].more| > 0 then 1 else 0]
    ensures Derived(cls, clsname, trimmed, otherbases) == Derived(cls, clsname, newparams, otherbases)
  {
    SameLocalItems(newparams, trimmed);
  }

  lemma {:induction false} SameLocalItems<V>(newparams: seq<Decl<V>>, trimmed: seq<Decl<V>>)
    requires |trimmed| == |newparams|
    requires forall i :: 0 <= i < |newparams| ==>
      trimmed[i].name == newparams[i].name && trimmed[i].default == newparams[i].default
      && trimmed[i].Doc() == newparams[i].Doc()
    ensures DefItems(trimmed) == DefItems(newparams)
    ensures DocItems(trimmed) == DocItems(newparams)
    decreases |newparams|
  {
    if newparams != [] {
      SameLocalItems(newparams[..|newparams| - 1], trimmed[..|trimmed| - 1]);
    }
  }
}
