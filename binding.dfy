/** Binding a schema to the keyword arguments of one construction
    (`Params.__init__`), the guarded attribute assignment (`__setattr__`) and
    the instance-level introspection methods. */
module Binding {
  import opened Wrappers
  import opened OrderedDicts
  import opened Schemas

  /** The keyword-argument dict of the owning class's constructor.  It belongs
      to the caller: binding pops the declared names out of it, and what is
      left goes on to the owner's own `__init__`. */
  class KwArgs<V> {
    var dict: ODict<V>

    constructor (d: ODict<V>)
      requires d.Valid()
      ensures dict == d
    {
      dict := d;
    }

    /** `kwargs.pop(key, default)`. */
    method Pop(key: string, default: V) returns (v: V)
      requires dict.Valid()
      modifies this
      ensures v == old(dict).Get(key).GetOr(default)
      ensures dict == old(dict).Remove(key)
    {
      v := dict.Get(key).GetOr(default);
      dict := dict.Remove(key);
    }
  }

  /** What the loop of `__init__` has produced after the names `names`: the
      attribute values set so far and what is left of the keyword arguments. */
  function BindNames<V>(names: seq<string>, defaults: map<string, V>, kw: ODict<V>)
    : (r: (map<string, V>, ODict<V>))
    requires kw.Valid()
    requires forall n :: n in names ==> n in defaults
    ensures r.1.Valid()
    decreases |names|
  {
    if names == [] then (map[], kw)
    else
      var done := BindNames(names[..|names| - 1], defaults, kw);
      var n := names[|names| - 1];
      (done.0[n := done.1.Get(n).GetOr(defaults[n])], done.1.Remove(n))
  }

  /** Binding schema `s` to the keyword arguments `kw`. */
  function Bind<V>(s: Schema<V>, kw: ODict<V>): (r: (map<string, V>, ODict<V>))
    requires s.Valid() && kw.Valid()
    ensures r.1.Valid()
    ensures forall n :: n in r.0 <==> n in s.Names()
    ensures forall k :: k in r.1.keys ==> k in kw.keys && k !in s.Names()
  {
    BindNamesSpec(s.defs.keys, s.defs.vals, kw);
    BindNames(s.defs.keys, s.defs.vals, kw)
  }

  /** Binding over distinct names: each name gets the keyword value when one
      was passed and its default otherwise, no other attribute is set, and the
      remaining keyword arguments are exactly the undeclared ones, with their
      values and in their order. */
  lemma {:induction false} BindNamesSpec<V>(names: seq<string>, defaults: map<string, V>, kw: ODict<V>)
    requires kw.Valid() && Distinct(names)
    requires forall n :: n in names ==> n in defaults
    ensures var r := BindNames(names, defaults, kw);
      && (forall n :: n in r.0 <==> n in names)
      && (forall n :: n in names ==> r.0[n] == kw.Get(n).GetOr(defaults[n]))
      && (forall k :: r.1.Get(k) == if k in names then None else kw.Get(k))
      && r.1.keys == Filter(kw.keys, names)
    decreases |names|
  {
    if names == [] {
      FilterNothing(kw.keys);
    } else {
      var p := names[..|names| - 1];
      var n := names[|names| - 1];
      assert names == p + [n];
      assert Distinct(p);
      assert n !in p;
      BindNamesSpec(p, defaults, kw);
      FilterTwice(kw.keys, p, n);
    }
  }

  /** Binding a schema: every declared name holds the keyword value if one was
      passed and its default otherwise; the declared names are removed from
      the keyword arguments and the others are left, values and order intact. */
  lemma BindSpec<V>(s: Schema<V>, kw: ODict<V>)
    requires s.Valid() && kw.Valid()
    ensures var r := Bind(s, kw);
      && (forall n :: n in r.0 <==> n in s.Names())
      && (forall n :: n in s.Names() ==> r.0[n] == if n in kw.vals then kw.vals[n] else s.defs.vals[n])
      && (forall k :: r.1.Get(k) == if k in s.Names() then None else kw.Get(k))
      && r.1.keys == Filter(kw.keys, s.Names())
  {
    BindNamesSpec(s.defs.keys, s.defs.vals, kw);
  }

  /** With no keyword arguments every parameter takes its default. */
  lemma BindEmpty<V>(s: Schema<V>)
    requires s.Valid()
    ensures Bind(s, Empty()).0 == s.defs.vals
    ensures Bind(s, Empty()).1 == Empty()
  {
    BindSpec(s, Empty());
    var r := Bind(s, Empty());
    GetExtensional(r.1, Empty<V>());
  }

  /** Keyword arguments that the schema does not declare pass through binding
      untouched, and every parameter keeps its default. */
  lemma BindPassThrough<V>(s: Schema<V>, kw: ODict<V>)
    requires s.Valid() && kw.Valid()
    requires forall k :: k in kw.keys ==> k !in s.Names()
    ensures Bind(s, kw).0 == s.defs.vals
    ensures Bind(s, kw).1 == kw
  {
    BindSpec(s, kw);
    var r := Bind(s, kw);
    FilterKeepsAll(kw.keys, s.Names());
    forall k ensures r.1.Get(k) == kw.Get(k) {
      if k in s.Names() {
        assert k !in kw.keys;
      }
    }
    GetExtensional(r.1, kw);
  }


  /** An instance of a `Params` class: its schema and its attributes. */
  class Params<V(==)> {
    const schema: Schema<V>
    var attrs: map<string, V>

    /** The schema is well formed and every declared name has a value. */
    ghost predicate Valid()
      reads this
    {
      schema.Valid() && forall n :: n in schema.defs.vals ==> n in attrs
    }

    /** `Params.__init__(self, kwargs)`: for each declared name in order, pop
        it from the caller's dict, falling back to the default, and set it. */
    constructor (schema: Schema<V>, kwargs: KwArgs<V>)
      requires schema.Valid() && kwargs.dict.Valid()
      modifies kwargs
      ensures Valid() && this.schema == schema
      ensures (attrs, kwargs.dict) == Bind(schema, old(kwargs.dict))
      ensures forall n :: n in attrs <==> n in schema.Names()
      ensures forall n :: n in schema.Names() ==>
        attrs[n] == if n in old(kwargs.dict.vals) then old(kwargs.dict.vals)[n] else schema.defs.vals[n]
      ensures forall k :: kwargs.dict.Get(k) == if k in schema.Names() then None else old(kwargs.dict).Get(k)
      ensures kwargs.dict.keys == Filter(old(kwargs.dict.keys), schema.Names())
    {
      this.schema := schema;
      attrs := map[];
      new;
      ghost var kw := kwargs.dict;
      var names := schema.defs.keys;
      for i := 0 to |names|
        invariant (attrs, kwargs.dict) == BindNames(names[..i], schema.defs.vals, kw)
      {
        var pname := names[i];
        assert names[..i + 1][..i] == names[..i];
        var v := kwargs.Pop(pname, schema.defs.vals[pname]);
        var _ := SetAttr(pname, v);
      }
      assert names[..|names|] == names;
      BindSpec(schema, kw);
    }

    /** The guard of `__setattr__`: a declared name, or one with a leading
        underscore. */
    predicate Settable(name: string): (r: bool)
      ensures schema.Valid() ==> (r <==> name in schema.Names() || (|name| > 0 && name[0] == '_'))
    {
      name in schema.defs.vals || (|name| > 0 && name[0] == '_')
    }

    /** `setattr(self, name, value)`: an AttributeError, changing nothing, for
        any other name. */
    method SetAttr(name: string, value: V) returns (r: Result<()>)
      modifies this
      ensures r == if Settable(name) then Ok(()) else Err(AttributeError)
      ensures attrs == if Settable(name) then old(attrs)[name := value] else old(attrs)
      ensures old(Valid()) ==> Valid()
    {
      if name !in schema.defs.vals && !(|name| > 0 && name[0] == '_') {
        return Err(AttributeError);
      }
      attrs := attrs[name := value];
      r := Ok(());
    }

    /** `_value(pname)`: `getattr(self, pname)`. */
    function Value(pname: string): (r: Result<V>)
      reads this
      ensures r.Err? ==> r.error == AttributeError
      ensures r.Ok? <==> pname in attrs
      ensures Valid() && pname in schema.Names() ==> r.Ok?
    {
      if pname in attrs then Ok(attrs[pname]) else Err(AttributeError)
    }

    /** `_isdefault(pname)`: whether the current value equals the default. */
    function IsDefault(pname: string): (r: Result<bool>)
      reads this
      ensures r.Ok? <==> Value(pname).Ok? && schema.Default(pname).Ok?
      ensures r.Ok? ==> (r.value <==> Value(pname).value == schema.Default(pname).value)
      ensures Valid() && pname in schema.Names() ==> r.Ok?
    {
      if pname !in attrs then Err(AttributeError)
      else if pname !in schema.defs.vals then Err(KeyError)
      else Ok(attrs[pname] == schema.defs.vals[pname])
    }

    /** `_values()`: the current values, aligned with `_names()`. */
    function Values(): (r: seq<V>)
      reads this
      requires Valid()
      ensures |r| == |schema.Names()|
      ensures forall i :: 0 <= i < |r| ==> Value(schema.Names()[i]) == Ok(r[i])
    {
      Column(schema.defs.keys, attrs)
    }

    /** `_kwvalues()`: the declared names with their current values, in
        declaration order. */
    function KwValues(): (r: ODict<V>)
      reads this
      requires Valid()
      ensures r.Valid() && r.keys == schema.Names()
      ensures forall n :: n in r.vals ==> Value(n) == Ok(r.vals[n])
    {
      ODict(schema.defs.keys, map n | n in schema.defs.vals :: attrs[n])
    }
  }

  /** A freshly bound instance reports a parameter as default exactly when no
      keyword value was passed for it or the value passed equals the default. */
  lemma IsDefaultAfterBind<V>(p: Params<V>, kw: ODict<V>, n: string)
    requires p.Valid() && kw.Valid()
    requires p.attrs == Bind(p.schema, kw).0
    requires n in p.schema.Names()
    ensures p.IsDefault(n) == Ok(n !in kw.vals || kw.vals[n] == p.schema.defs.vals[n])
  {
    BindSpec(p.schema, kw);
  }
}
