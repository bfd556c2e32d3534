/** The class hierarchies of the repository's tests, derived with the model,
    and what the model says about them.  The tuple lists of each hierarchy are
    parameters fixed by the preconditions.  In tests/test_paramsbase.py, B
    derives from `ParamsBase`, whose params class declares nothing; here B
    derives from `Root()` directly, which gives the same tables and a class
    name without the `ParamsBase_` infix, a name no assertion reads. */
module Scenarios {
  import opened Wrappers
  import opened OrderedDicts
  import opened Schemas
  import opened Binding

  /** The Python values the tests use as defaults. */
  datatype PyVal = PyBool(b: bool) | PyInt(i: int) | PyNone

  /** The tuple lists of the tests, element by element. */
  predicate ApiDeclsP(p: seq<Decl<PyVal>>) {
    |p| == 2 && p[0] == Decl("p1", PyBool(true), ["doc"]) && p[1] == Decl("p2", PyInt(99), [])
  }

  predicate ApiDeclsP3(p3: seq<Decl<PyVal>>) {
    |p3| == 1 && p3[0] == Decl("p3", PyNone, ["None here"])
  }

  predicate DocDeclsA(a: seq<Decl<PyVal>>) {
    |a| == 2 && a[0] == Decl("p1", PyBool(true), []) && a[1] == Decl("p2", PyInt(99), ["With docstring"])
  }

  predicate DocDeclsB(b: seq<Decl<PyVal>>) {
    |b| == 1 && b[0] == Decl("p2", PyInt(83), [])
  }

  predicate DocDeclsC(c: seq<Decl<PyVal>>) {
    |c| == 1 && c[0] == Decl("p1", PyBool(false), ["Value changed to False"])
  }

  predicate BaseDeclsB(b: seq<Decl<PyVal>>) {
    |b| == 2 && b[0] == Decl("p1", PyBool(true), []) && b[1] == Decl("p2", PyInt(99), ["With docstring"])
  }

  predicate BaseDeclsC(c: seq<Decl<PyVal>>) {
    |c| == 2 && c[0] == Decl("p1", PyBool(false), []) && c[1] == Decl("p3", PyNone, ["None here"])
  }

  /** Redeclaring a name with a 2-tuple resets its doc to `''`, and a further
      subclass that leaves the name alone inherits that `''`, whatever doc the
      grandparent gave it. */
  lemma DocReset<V>(a: Schema<V>, bname: string, d: Decl<V>, cname: string, cparams: seq<Decl<V>>)
    requires a.Valid()
    requires |d.more| == 0
    requires d.name !in DeclNames(cparams)
    ensures Derived(Derived(a, bname, [d], []), cname, cparams, []).Doc(d.name) == Ok("")
    ensures Derived(Derived(a, bname, [d], []), cname, cparams, []).Default(d.name) == Ok(d.default)
  {
    LocalOverride(a, bname, [d], [], 0);
    Inherited(Derived(a, bname, [d], []), cname, cparams, [], d.name);
  }

  /** tests/test_params_doc_update.py: A declares p1 without a doc and p2
      with one. */
  lemma DocA(a: seq<Decl<PyVal>>)
    requires DocDeclsA(a)
    ensures var sa := Derived(Root(), "A", a, []);
      sa.Doc("p1") == Ok("") && sa.Doc("p2") == Ok("With docstring")
  {
    LocalOverride(Root(), "A", a, [], 0);
    LocalOverride(Root(), "A", a, [], 1);
  }

  /** tests/test_params_doc_update.py: C(B) redeclares p1 with a doc, which
      C then reports. */
  lemma DocCp1(sb: Schema<PyVal>, c: seq<Decl<PyVal>>)
    requires sb.Valid()
    requires DocDeclsC(c)
    ensures Derived(sb, "C", c, []).Doc("p1") == Ok("Value changed to False")
  {
    LocalOverride(sb, "C", c, [], 0);
  }

  /** tests/test_params_doc_update.py: B(A) redeclares p2 as `('p2', 83)` and
      C(B) leaves p2 alone, so whatever A was, C documents p2 with `''`. */
  lemma DocCp2(sa: Schema<PyVal>, b: seq<Decl<PyVal>>, c: seq<Decl<PyVal>>)
    requires sa.Valid()
    requires DocDeclsB(b)
    requires DocDeclsC(c)
    ensures Derived(Derived(sa, "B", b, []), "C", c, []).Doc("p2") == Ok("")
  {
    assert DeclNames(c) == ["p1"];
    assert [b[0]] == b;
    DocReset(sa, "B", b[0], "C", c);
  }

  /** tests/test_params_doc_update.py as a whole: C's doc for p1 differs from
      A's, as the test asserts; C's doc for p2 is `''` and differs from A's
      `'With docstring'`, the opposite of the test's last assertion. */
  lemma DocUpdateScenario(a: seq<Decl<PyVal>>, b: seq<Decl<PyVal>>, c: seq<Decl<PyVal>>)
    requires DocDeclsA(a)
    requires DocDeclsB(b)
    requires DocDeclsC(c)
    ensures var sa := Derived(Root(), "A", a, []);
            var sc := Derived(Derived(sa, "B", b, []), "C", c, []);
      sa.Doc("p1") != sc.Doc("p1") && sa.Doc("p2") != sc.Doc("p2")
  {
    DocA(a);
    DocCp1(Derived(Derived(Root(), "A", a, []), "B", b, []), c);
    DocCp2(Derived(Root(), "A", a, []), b, c);
  }

  /** tests/test_params_api.py: P declares p1 with a doc and p2 without. */
  lemma ApiP(p: seq<Decl<PyVal>>)
    requires ApiDeclsP(p)
    ensures var sp := Derived(Root(), "a", p, []);
      && sp.Default("p1") == Ok(PyBool(true)) && sp.Doc("p1") == Ok("doc")
      && sp.Default("p2") == Ok(PyInt(99)) && sp.Doc("p2") == Ok("")
  {
    LocalOverride(Root(), "a", p, [], 0);
    LocalOverride(Root(), "a", p, [], 1);
  }

  /** tests/test_params_api.py: P's names, in declaration order. */
  lemma ApiPNames(p: seq<Decl<PyVal>>)
    requires ApiDeclsP(p)
    ensures Derived(Root(), "a", p, []).Names() == ["p1", "p2"]
  {
    assert DeclNames(p) == ["p1", "p2"];
    LocalOrder(Root(), "a", p);
    FilterNothing(["p1", "p2"]);
  }

  /** tests/test_params_api.py: P3 declares p3 only. */
  lemma ApiP3(p3: seq<Decl<PyVal>>)
    requires ApiDeclsP3(p3)
    ensures var s3 := Derived(Root(), "P3", p3, []);
      && s3.Names() == ["p3"]
      && s3.Default("p3") == Ok(PyNone) && s3.Doc("p3") == Ok("None here")
  {
    LocalOverride(Root(), "P3", p3, [], 0);
    assert DeclNames(p3) == ["p3"];
    LocalOrder(Root(), "P3", p3);
    FilterNothing(["p3"]);
  }

  /** tests/test_params_api.py: `PX = P._subclass('PX', (), P3)` lists P's
      parameters and then p3, taken from its other base. */
  lemma ApiPXNames(sp: Schema<PyVal>, s3: Schema<PyVal>)
    requires sp.Valid() && s3.Valid()
    requires sp.Names() == ["p1", "p2"] && s3.Names() == ["p3"]
    ensures Derived(sp, "PX", [], [s3]).Names() == ["p1", "p2", "p3"]
  {
    DisjointOtherBase(sp, "PX", s3);
  }

  /** tests/test_params_api.py: PX keeps P's entries for p1 and p2 and takes
      P3's for p3. */
  lemma ApiPX(sp: Schema<PyVal>, s3: Schema<PyVal>)
    requires sp.Valid() && s3.Valid()
    requires sp.Names() == ["p1", "p2"] && s3.Names() == ["p3"]
    ensures Derived(sp, "PX", [], [s3]).Default("p1") == sp.Default("p1")
    ensures Derived(sp, "PX", [], [s3]).Doc("p1") == sp.Doc("p1")
    ensures Derived(sp, "PX", [], [s3]).Default("p2") == sp.Default("p2")
    ensures Derived(sp, "PX", [], [s3]).Doc("p2") == sp.Doc("p2")
    ensures Derived(sp, "PX", [], [s3]).Default("p3") == s3.Default("p3")
    ensures Derived(sp, "PX", [], [s3]).Doc("p3") == s3.Doc("p3")
  {
    OneOtherBase(sp, "PX", s3, "p1");
    OneOtherBase(sp, "PX", s3, "p2");
    OneOtherBase(sp, "PX", s3, "p3");
  }

  /** tests/test_paramsbase.py: B declares p1 without a doc and p2 with one. */
  lemma BaseB(b: seq<Decl<PyVal>>)
    requires BaseDeclsB(b)
    ensures var sb := Derived(Root(), "B", b, []);
      && sb.Default("p1") == Ok(PyBool(true)) && sb.Doc("p1") == Ok("")
      && sb.Default("p2") == Ok(PyInt(99)) && sb.Doc("p2") == Ok("With docstring")
  {
    LocalOverride(Root(), "B", b, [], 0);
    LocalOverride(Root(), "B", b, [], 1);
  }

  /** tests/test_paramsbase.py: B's names, in declaration order. */
  lemma BaseBNames(b: seq<Decl<PyVal>>)
    requires BaseDeclsB(b)
    ensures Derived(Root(), "B", b, []).Names() == ["p1", "p2"]
  {
    assert DeclNames(b) == ["p1", "p2"];
    LocalOrder(Root(), "B", b);
    FilterNothing(["p1", "p2"]);
  }

  /** tests/test_paramsbase.py: C(B) changes p1's default, keeps p2's default
      and doc, and adds p3. */
  lemma BaseC(sb: Schema<PyVal>, c: seq<Decl<PyVal>>)
    requires sb.Valid() && sb.Names() == ["p1", "p2"]
    requires BaseDeclsC(c)
    ensures var sc := Derived(sb, "C", c, []);
      && sc.Default("p1") == Ok(PyBool(false)) && sc.Doc("p1") == Ok("")
      && sc.Default("p2") == sb.Default("p2") && sc.Doc("p2") == sb.Doc("p2")
      && sc.Default("p3") == Ok(PyNone) && sc.Doc("p3") == Ok("None here")
  {
    LocalOverride(sb, "C", c, [], 0);
    LocalOverride(sb, "C", c, [], 1);
    assert DeclNames(c) == ["p1", "p3"];
    Inherited(sb, "C", c, [], "p2");
  }

  /** tests/test_paramsbase.py: C's names: B's, then the new p3. */
  lemma BaseCNames(sb: Schema<PyVal>, c: seq<Decl<PyVal>>)
    requires sb.Valid() && sb.Names() == ["p1", "p2"]
    requires BaseDeclsC(c)
    ensures Derived(sb, "C", c, []).Names() == ["p1", "p2", "p3"]
  {
    assert DeclNames(c) == ["p1", "p3"];
    LocalOrder(sb, "C", c);
    OnlyP3IsNew();
  }

  /** Of C's local names only p3 is new to B. */
  lemma OnlyP3IsNew()
    ensures Filter(["p1", "p3"], ["p1", "p2"]) == ["p3"]
  {
    assert Filter(["p3"], ["p1", "p2"]) == ["p3"] + Filter([], ["p1", "p2"]);
  }

  /** `P(dict(p2=33))` in tests/test_params_api.py and `B(p2=33)` in
      tests/test_paramsbase.py: p2 takes the keyword value and p1 its default,
      and p2 is consumed from the keyword arguments. */
  method BindP2(sb: Schema<PyVal>) returns (pb: Params<PyVal>, kwargs: KwArgs<PyVal>)
    requires sb.Valid() && sb.Names() == ["p1", "p2"]
    ensures pb.schema == sb
    ensures pb.Value("p1") == sb.Default("p1") && pb.IsDefault("p1") == Ok(true)
    ensures pb.Value("p2") == Ok(PyInt(33))
    ensures pb.IsDefault("p2") == Ok(sb.Default("p2") == Ok(PyInt(33)))
    ensures kwargs.dict.Valid() && kwargs.dict.keys == []
  {
    kwargs := new KwArgs(ODict(["p2"], map["p2" := PyInt(33)]));
    pb := new Params(sb, kwargs);
    assert "p1" in sb.Names() && "p2" in sb.Names();
    assert Filter(["p2"], sb.Names()) == [];
  }

  /** `C()` in tests/test_paramsbase.py and `PX(dict())` in
      tests/test_params_api.py: every parameter takes its default. */
  method BindDefaults(sc: Schema<PyVal>) returns (pc: Params<PyVal>)
    requires sc.Valid()
    ensures pc.schema == sc
    ensures forall n :: n in sc.Names() ==> pc.Value(n) == sc.Default(n) && pc.IsDefault(n) == Ok(true)
  {
    var none := new KwArgs(Empty());
    pc := new Params(sc, none);
  }

  /** tests/test_params_api.py: `P(dict(p2=33))`. */
  method ApiRunP(p: seq<Decl<PyVal>>) returns (pp: Params<PyVal>)
    requires ApiDeclsP(p)
    ensures pp.Value("p1") == Ok(PyBool(true)) && pp.IsDefault("p1") == Ok(true)
    ensures pp.Value("p2") == Ok(PyInt(33)) && pp.IsDefault("p2") == Ok(false)
    ensures pp.schema.Doc("p1") == Ok("doc") && pp.schema.Doc("p2") == Ok("")
  {
    var sp := Derived(Root(), "a", p, []);
    ApiP(p);
    ApiPNames(p);
    var kwargs;
    pp, kwargs := BindP2(sp);
  }

  /** tests/test_params_api.py: PX, put together from P and P3. */
  lemma ApiSX(p: seq<Decl<PyVal>>, p3: seq<Decl<PyVal>>)
    requires ApiDeclsP(p) && ApiDeclsP3(p3)
    ensures var sx := Derived(Derived(Root(), "a", p, []), "PX", [], [Derived(Root(), "P3", p3, [])]);
      && sx.Names() == ["p1", "p2", "p3"]
      && sx.Default("p1") == Ok(PyBool(true)) && sx.Doc("p1") == Ok("doc")
      && sx.Default("p2") == Ok(PyInt(99)) && sx.Doc("p2") == Ok("")
      && sx.Default("p3") == Ok(PyNone) && sx.Doc("p3") == Ok("None here")
  {
    ApiP(p);
    ApiPNames(p);
    ApiP3(p3);
    ApiPXNames(Derived(Root(), "a", p, []), Derived(Root(), "P3", p3, []));
    ApiPX(Derived(Root(), "a", p, []), Derived(Root(), "P3", p3, []));
  }

  /** tests/test_params_api.py: `PX(dict())`: every parameter of PX takes its
      default. */
  method ApiRunPX(p: seq<Decl<PyVal>>, p3: seq<Decl<PyVal>>) returns (px: Params<PyVal>)
    requires ApiDeclsP(p) && ApiDeclsP3(p3)
    ensures px.Value("p1") == Ok(PyBool(true))
    ensures px.Value("p2") == Ok(PyInt(99))
    ensures px.Value("p3") == Ok(PyNone)
  {
    var sp := Derived(Root(), "a", p, []);
    var sx := Derived(sp, "PX", [], [Derived(Root(), "P3", p3, [])]);
    ApiSX(p, p3);
    px := BindDefaults(sx);
  }

  /** tests/test_paramsbase.py: `B(p2=33)`. */
  method BaseRunB(b: seq<Decl<PyVal>>) returns (pb: Params<PyVal>)
    requires BaseDeclsB(b)
    ensures pb.Value("p1") == Ok(PyBool(true)) && pb.Value("p2") == Ok(PyInt(33))
    ensures pb.IsDefault("p1") == Ok(true) && pb.IsDefault("p2") == Ok(false)
    ensures pb.schema.Doc("p1") == Ok("") && pb.schema.Doc("p2") == Ok("With docstring")
  {
    BaseB(b);
    BaseBNames(b);
    var kwargs;
    pb, kwargs := BindP2(Derived(Root(), "B", b, []));
  }

  /** tests/test_paramsbase.py: `C()` for C(B). */
  method BaseRunC(b: seq<Decl<PyVal>>, c: seq<Decl<PyVal>>) returns (pc: Params<PyVal>)
    requires BaseDeclsB(b)
    requires BaseDeclsC(c)
    ensures pc.schema.Valid() && pc.schema.Names() == ["p1", "p2", "p3"]
    ensures pc.Value("p1") == Ok(PyBool(false)) && pc.schema.Doc("p1") == Ok("")
    ensures pc.Value("p2") == Ok(PyInt(99)) && pc.schema.Doc("p2") == Ok("With docstring")
    ensures pc.Value("p3") == Ok(PyNone) && pc.schema.Doc("p3") == Ok("None here")
  {
    var sb := Derived(Root(), "B", b, []);
    BaseB(b);
    BaseBNames(b);
    BaseC(sb, c);
    BaseCNames(sb, c);
    pc := BindDefaults(Derived(sb, "C", c, []));
  }
}
