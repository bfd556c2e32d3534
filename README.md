# metaparams: the `Params` parameter-table engine

metaparams lets a class declare its parameters as tuples
`(name, default[, doc])`. The parameters live in a `Params` subclass, which
holds two ordered tables: name to default (`_pdefs`) and name to doc
(`_pdocs`). Deriving a class derives its `Params`. The new class starts from
the primary base's tables, overlays the tables of each other base left to
right, then applies the local tuples. A local tuple without a doc sets the doc
to `''`. An instance is bound to the owner's keyword-argument dict: each
declared name is popped from that dict, falling back to its default. Whatever
is left goes on to the owner's own `__init__`. Assignment accepts only
declared names and `_`-prefixed names. Getters list names, defaults, docs and
values in declaration order. `MetaParams` can also install a one-letter alias
of the params attribute.

The model has six modules:

- `Wrappers` holds `Option` and `Result`. Python's `AttributeError` and `KeyError` are error values.
- `OrderedDicts` models Python's `OrderedDict` as a value `ODict`: the keys in insertion order plus a map. It provides item assignment, `pop`, `update` and a sequence of assignments (`SetAll`), with lemmas on lookups and key order.
- `Schemas` holds a `Params` class as a value `Schema` (name plus the two tables) and the class-level getters. It also holds the derivation:
  - `Derived` is the specification function.
  - `Subclass` is the loop-based method proved equal to it.
  - `ResolveDefault` and `ResolveDoc` are independent reference definitions of precedence. The lemmas connect them to `Derived`.
- `Binding` holds the mutable parts:
  - `KwArgs` is the caller-owned keyword dict, popped in place.
  - `Params` is the bound instance: a class with a mutable attribute map.
  - `Bind` is the specification of the `__init__` loop.
- `Aliases` holds the alias-name rule of `MetaParams._init_pre`.
- `Scenarios` builds the repository's test hierarchies with the model and derives what their assertions check. The hierarchy of tests/test_paramsbase.py starts from `Params` itself rather than from the empty `ParamsBase` layer, which changes only the derived class name.

Parameter values have a generic type `V` with equality, which stands for Python's `==`. Deriving cannot modify a parent's or another base's tables: `Schema` is a value, and `_subclass` copies the tables before changing them.

Lines 97-102 of metaparams/metaparams.py replace both the default and the doc of a redeclared name: a local 2-tuple sets the doc to `''` rather than keeping the inherited one. The repository's test tests/test_params_doc_update.py asserts at line 58 that a doc survives such a redeclaration. The code does not do that. `Scenarios.DocUpdateScenario` proves the opposite for that hierarchy, and `Scenarios.DocReset` proves it in general.

## Model

| member | source | states |
|---|---|---|
| OrderedDicts.ODict.SetItem | metaparams/metaparams.py:101-102 | `d[k] = v` keeps the dict well formed; an existing key keeps its position and a new key is appended |
| OrderedDicts.SetItemGet | metaparams/metaparams.py:101-102 | after `d[k] = v`, `k` holds `v` and every other key holds what it held before |
| OrderedDicts.ODict.Remove | metaparams/metaparams.py:61 | popping a key keeps the dict well formed and removes exactly that key from the key order, the others keeping theirs |
| OrderedDicts.RemoveGet | metaparams/metaparams.py:61 | after popping `k`, `k` is absent and every other key holds what it held |
| OrderedDicts.Empty | metaparams/metaparams.py:55-56 | an empty `OrderedDict` is well formed and has no keys |
| OrderedDicts.SetAll | metaparams/metaparams.py:97-102 | a sequence of item assignments keeps a dict well formed |
| OrderedDicts.SetAllGet | metaparams/metaparams.py:97-102 | after a sequence of assignments, each key holds the value of its last assignment, or its old value if it was never assigned |
| OrderedDicts.SetAllKeys | metaparams/metaparams.py:97-102 | after a sequence of assignments, the keys are the old keys in their order, followed by the newly assigned keys in first-assignment order |
| OrderedDicts.SetAllAppend | metaparams/metaparams.py:92-102 | assigning two sequences one after the other is assigning their concatenation |
| OrderedDicts.Update | metaparams/metaparams.py:93-94 | `t.update(other)` keeps `t` well formed |
| OrderedDicts.UpdateGet | metaparams/metaparams.py:93-94 | after `t.update(other)`, a key holds `other`'s value when `other` has it and `t`'s old value otherwise |
| OrderedDicts.UpdateKeys | metaparams/metaparams.py:93-94 | after `t.update(other)`, the keys are `t`'s followed by `other`'s keys not in `t`, in `other`'s order |
| OrderedDicts.Filter | metaparams/metaparams.py:58-61 | the keys left after popping a list of names are exactly those not popped; no duplicates appear |
| OrderedDicts.FirstSeenDistinct | metaparams/metaparams.py:92-102 | for names without repeats, the first-seen order of new names is the names not already present, in their order |
| Schemas.Decl.Doc | metaparams/metaparams.py:99 | a tuple's doc is its third element, or `''` for a 2-tuple |
| Schemas.Schema.Default | metaparams/metaparams.py:127-129 | `_default(n)` raises KeyError unless `n` is declared, and otherwise gives `n`'s entry in `_pdefs` |
| Schemas.Schema.Doc | metaparams/metaparams.py:132-134 | `_doc(n)` raises KeyError unless `n` is declared, and otherwise gives `n`'s entry in `_pdocs` |
| Schemas.Schema.Names | metaparams/metaparams.py:137-139 | `_names()` lists no name twice; a name is listed iff both `_default` and `_doc` find it (no KeyError) |
| Schemas.Schema.Defaults | metaparams/metaparams.py:146-148 | `_defaults()` is as long as `_names()`; its i-th entry is `_default` of the i-th name |
| Schemas.Schema.Docs | metaparams/metaparams.py:151-153 | `_docs()` is as long as `_names()`; its i-th entry is `_doc` of the i-th name |
| Schemas.Schema.KwDefaults | metaparams/metaparams.py:160-162 | `_kwdefaults()` is a well-formed ordered dict keyed by `_names()` in order; each entry is that name's `_default` |
| Schemas.Schema.KwDocs | metaparams/metaparams.py:165-167 | `_kwdocs()` is a well-formed ordered dict keyed by `_names()` in order; each entry is that name's `_doc` |
| Schemas.Root | metaparams/metaparams.py:55-56 | `Params` itself is a well-formed schema with no parameters |
| Schemas.UpdateAll | metaparams/metaparams.py:92-94 | updating a table with each other base's table in turn keeps it well formed |
| Schemas.UpdateAllLayered | metaparams/metaparams.py:92-94 | updating with each table in turn is assigning all their entries, table after table, each in its own order |
| Schemas.Derived | metaparams/metaparams.py:74-116 | a derived class has well-formed tables: both list the same distinct names in the same order |
| Schemas.Subclass | metaparams/metaparams.py:74-116 | the copy, the loop of `update`s over the other bases and the loop of assignments over the local tuples compute exactly `Derived` |
| Schemas.UpdateAllStep | metaparams/metaparams.py:92-94 | one turn of the other-bases loop is one more `update` |
| Schemas.AssignStep | metaparams/metaparams.py:97-102 | one turn of the local-tuple loop is one more assignment to each table |
| Schemas.DerivedFlat | metaparams/metaparams.py:88-102 | a derived table is the primary's table after one sequence of assignments: the other bases' entries, then the local tuples' |
| Schemas.LastDecl | metaparams/metaparams.py:97-102 | reference definition: the last local tuple naming `n`, absent iff no tuple names it |
| Schemas.LastBase | metaparams/metaparams.py:92-94 | reference definition: the rightmost other base declaring `n`, absent iff none does |
| Schemas.ResolveDefault | metaparams/metaparams.py:88-102 | reference definition of default precedence: a name has a default iff a local tuple, some other base or the primary base declares it |
| Schemas.ResolveDoc | metaparams/metaparams.py:88-102 | reference definition of doc precedence: over well-formed bases, a name has a doc iff it has a default |
| Schemas.DerivedKeysAgree | metaparams/metaparams.py:88-102 | `_pdefs` and `_pdocs` of a derived class have the same keys: the primary's, then the new names in first-seen order |
| Schemas.DerivedDefault | metaparams/metaparams.py:88-102 | a derived default is the last local tuple's; failing that the rightmost declaring other base's; failing that the primary's |
| Schemas.DerivedDoc | metaparams/metaparams.py:88-102 | a derived doc follows the same precedence, with a local tuple's doc `''` when it has two elements |
| Schemas.DerivedOrder | metaparams/metaparams.py:88-105 | the names are the primary's (a prefix) followed by the new names in the order other bases and then local tuples first mention them; the class name is `cls.__name__ + '_' + clsname` |
| Schemas.LocalOrder | metaparams/metaparams.py:97-102 | with no other bases and distinct local names, the names are the primary's followed by the local names it lacks, in declaration order |
| Schemas.DisjointOtherBase | metaparams/metaparams.py:92-94 | with one other base sharing no name with the primary and no local tuples, the names are the primary's followed by the other base's |
| Schemas.OneOtherBase | metaparams/metaparams.py:92-94 | with one other base and no local tuples, each default and doc comes from the other base when it declares the name and from the primary otherwise |
| Schemas.DerivedDeclares | metaparams/metaparams.py:88-102 | a derived class declares a name iff the primary, some other base or some local tuple declares it |
| Schemas.LocalOverride | metaparams/metaparams.py:97-102 | the last tuple naming `n` gives it default `np[1]` and doc `np[2]`, or `''` for a 2-tuple |
| Schemas.Inherited | metaparams/metaparams.py:88-94 | a name that no other base and no local tuple declares keeps the primary's default and doc |
| Schemas.ExtraElementsIgnored | metaparams/metaparams.py:98-99 | tuple elements after the third make no difference to the derived class |
| Binding.KwArgs.constructor | metaparams/metaparams.py:58-59 | the caller's keyword dict becomes one heap object holding exactly the dict passed, which `Params.constructor` then pops in place |
| Binding.KwArgs.Pop | metaparams/metaparams.py:61 | `kwargs.pop(name, default)` returns the value if present and the default otherwise, and removes the key from the caller's dict |
| Binding.BindNames | metaparams/metaparams.py:60-61 | what is left of the keyword dict after popping names is still a well-formed ordered dict |
| Binding.Bind | metaparams/metaparams.py:58-61 | binding leaves a well-formed remainder, sets exactly the declared names, and keeps in the remainder only undeclared keys of the caller's dict |
| Binding.BindNamesSpec | metaparams/metaparams.py:60-61 | over distinct names, each gets its keyword value or its default; nothing else is set; exactly those keys are removed from the keyword dict, and the rest keep their values and order |
| Binding.BindSpec | metaparams/metaparams.py:58-61 | binding a class sets exactly its declared names, each to `kwargs[name]` if present and to its default otherwise; the declared names are consumed, and undeclared keys stay with their values and order |
| Binding.BindEmpty | metaparams/metaparams.py:58-61 | with empty kwargs every value is its default and the dict stays empty |
| Binding.BindPassThrough | metaparams/metaparams.py:58-61 | kwargs that name no parameter are left entirely untouched, and every value is its default |
| Binding.Params.constructor | metaparams/metaparams.py:58-61 | the `__init__` loop of pop-and-setattr produces `Bind`'s attributes and leaves `Bind`'s remainder in the caller's dict, stated name by name |
| Binding.Params.Settable | metaparams/metaparams.py:65 | for a well-formed class, a name may be set iff `_names()` lists it or it starts with `_` |
| Binding.Params.SetAttr | metaparams/metaparams.py:63-68 | a name neither declared nor `_`-prefixed raises AttributeError and changes nothing; otherwise the attribute is set; a bound instance stays bound |
| Binding.Params.Value | metaparams/metaparams.py:122-124 | `_value(n)` raises AttributeError iff the instance has no attribute `n`, and always succeeds for a declared name of a bound instance |
| Binding.Params.IsDefault | metaparams/metaparams.py:118-120 | `_isdefault(n)` succeeds iff `_value(n)` and `_default(n)` both do, and is true iff they are equal; it always succeeds for a declared name of a bound instance |
| Binding.IsDefaultAfterBind | metaparams/metaparams.py:118-120 | right after binding, a parameter is default iff no keyword value was passed for it or the one passed equals its default |
| Binding.Params.Values | metaparams/metaparams.py:141-143 | `_values()` is as long as `_names()`; its i-th entry is `_value` of the i-th name |
| Binding.Params.KwValues | metaparams/metaparams.py:155-157 | `_kwvalues()` is keyed by `_names()` in order, and each entry equals `_value` of its name |
| Aliases.ShortAlias | metaparams/metaparams.py:256-258 | an alias exists iff `_pshort` is set and at least two letters follow the optional leading underscore; it is that first letter, and it differs from the attribute name |
| Aliases.AliasExamples | metaparams/metaparams.py:256-258 | `kargs` gives `k`, `xx` gives `x`, `_params` gives `p`; `x`, `_x` and a disabled `_pshort` give none |
| Scenarios.DocReset | metaparams/metaparams.py:97-102 | a 2-tuple redeclaration sets the doc to `''`, and a subclass not redeclaring the name inherits `''`, whatever the grandparent's doc was |
| Scenarios.DocA | tests/test_params_doc_update.py:31-36 | A documents p1 as `''` and p2 as `'With docstring'` |
| Scenarios.DocCp1 | tests/test_params_doc_update.py:49-52 | C documents p1 as `'Value changed to False'` |
| Scenarios.DocCp2 | tests/test_params_doc_update.py:41-52 | whatever A is, C(B(A)) documents p2 as `''` |
| Scenarios.DocUpdateScenario | tests/test_params_doc_update.py:54-58 | A's and C's docs for p1 differ, as asserted at line 54; their docs for p2 also differ, contrary to line 58 |
| Scenarios.ApiP | tests/test_params_api.py:29-45 | P has default True and doc `'doc'` for p1, and default 99 and doc `''` for p2 |
| Scenarios.ApiPNames | tests/test_params_api.py:29-34 | P's names are p1, p2 |
| Scenarios.ApiP3 | tests/test_params_api.py:60-64 | P3 has the single name p3, with default None and doc `'None here'` |
| Scenarios.ApiPXNames | tests/test_params_api.py:66-67 | PX derived from P with other base P3 lists p1, p2, p3 |
| Scenarios.ApiPX | tests/test_params_api.py:66-82 | PX takes the defaults and docs of p1 and p2 from P and those of p3 from P3 |
| Scenarios.ApiSX | tests/test_params_api.py:66-82 | PX's defaults and docs are the values the test checks |
| Scenarios.BindP2 | tests/test_paramsbase.py:38-53 | binding `p2=33` to a p1, p2 class leaves p1 at its default, sets p2 to 33 and consumes the keyword |
| Scenarios.BindDefaults | tests/test_paramsbase.py:62-84 | binding no keywords leaves every parameter default |
| Scenarios.ApiRunP | tests/test_params_api.py:47-57 | `P(dict(p2=33))`: p1 is True and default, p2 is 33 and not default, with docs `'doc'` and `''` |
| Scenarios.ApiRunPX | tests/test_params_api.py:66-82 | `PX(dict())` has p1 True, p2 99 and p3 None |
| Scenarios.BaseB | tests/test_paramsbase.py:29-33 | B has default True and doc `''` for p1, and default 99 and doc `'With docstring'` for p2 |
| Scenarios.BaseBNames | tests/test_paramsbase.py:29-33 | B's names are p1, p2 |
| Scenarios.BaseC | tests/test_paramsbase.py:55-74 | C(B) gives p1 default False and doc `''`, keeps B's p2, and adds p3 with default None and doc `'None here'` |
| Scenarios.BaseCNames | tests/test_paramsbase.py:55-60 | C's names are B's p1, p2 followed by p3 |
| Scenarios.BaseRunB | tests/test_paramsbase.py:38-53 | `B(p2=33)`: p1 is True and default, p2 is 33 and not default, with docs `''` and `'With docstring'` |
| Scenarios.BaseRunC | tests/test_paramsbase.py:62-84 | `C()` lists p1, p2, p3 with values False, 99, None and docs `''`, `'With docstring'`, `'None here'` |

## Left out

- metaparams/metaparams.py:170-244 and 263-303 (the `MetaParams` metaclass, `as_metaclass`, the `metaparams` decorator) and metaparams/metaframe.py are construction plumbing. Derivation is instead called explicitly with a primary base, the other bases and the local tuples, as `MetaParams.__new__` passes them (lines 234-241).
- Dynamic class creation with `type(...)` (line 106) is not modelled. A derived class is the value `Schema(name, defs, docs)`, and its name is modelled.
- Registering the derived class in its module for pickling (lines 108-110) is a global side effect and is not modelled.
- `__iter__` (lines 70-71) iterates `_pdefs`, which yields `Schemas.Schema.Names`. It has no member of its own.
- `_value` and `getattr` are modelled only over instance attributes. Python's fallback to class attributes and methods is not modelled, e.g. `_value('_names')` returning a bound method.
- Instance attributes shadowing class members are not modelled. In Python, `p._pdefs = 5` through the `_` escape, or a parameter named `_pdefs` set by `__init__`, hides the class's table or a getter from `__setattr__`, `_isdefault`, `_values` and `_kwvalues`, which then fail or misbehave. In the model `schema` is a constant that no assignment reaches, so `SetAttr` keeps using the class tables.
- Tuples shorter than two elements are not representable. Python fails on them with a ValueError during unpacking at line 98.
- Names and docs are modelled as strings. Python accepts any hashable name and any doc object.
- Python values are not modelled as shared, mutable objects. A default object shared between instances and the class is modelled as a value.
- In `MetaParams._init_pre`, only the alias name is modelled. Setting the params and alias attributes on the owner (lines 250-258) and calling the next hook (line 260) are not.
- The `__main__` demo (lines 306-320) is not modelled.
- The assertion at tests/test_params_doc_update.py:58 is not proved, because the code contradicts it. `Scenarios.DocUpdateScenario` proves its negation.
