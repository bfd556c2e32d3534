/** The one-letter alias that `MetaParams` installs on an instance beside the
    params attribute when `_pshort` is set. */
module Aliases {
  import opened Wrappers

  /** The attribute name with at most one leading underscore taken off. */
  function Stem(pname: string): string {
    if |pname| > 0 && pname[0] == '_' then pname[1..] else pname
  }

  /** The alias attribute name for params attribute `pname`: its first letter
      after one leading underscore, when at least two letters follow that
      underscore; none when `_pshort` is off. */
  function ShortAlias(pname: string, pshort: bool): (r: Option<string>)
    ensures r.Some? <==> pshort && |Stem(pname)| >= 2
    ensures r.Some? ==> r.value == [Stem(pname)[0]]
    ensures r.Some? ==> r.value != pname && r.value[0] in pname
  {
    var lead := if |pname| > 0 && pname[0] == '_' then 1 else 0;
    if pshort && |pname| > 1 + lead then Some([pname[lead]]) else None
  }

  /** The names used by the tests and the documentation. */
  lemma AliasExamples()
    ensures ShortAlias("kargs", true) == Some("k")
    ensures ShortAlias("xx", true) == Some("x")
    ensures ShortAlias("_params", true) == Some("p")
    ensures ShortAlias("x", true) == None
    ensures ShortAlias("_x", true) == None
    ensures ShortAlias("params", false) == None
  {
  }
}
