/**
 * The catalogue of downloadable models and their resources, and the two
 * name checks run against it.
 */
module Resources {
  import opened Wrappers

  datatype Ressource = Ressource(url: string, deflate: bool, name: string, h2: bool)

  datatype Model = Model(name: string, ressources: seq<Ressource>)

  datatype Models = Models(models: seq<Model>)

  /** The first resource with the given name. */
  function Find(rs: seq<Ressource>, name: string): (r: Option<Ressource>)
  {
    if rs == [] then None
    else if rs[0].name == name then Some(rs[0])
    else Find(rs[1..], name)
  }

  /** Whether the model lists a resource of that name. */
  predicate IsValidRessource(m: Model, name: string)
  {
    Find(m.ressources, name).Some?
  }

  /** The number of models with the given name. */
  function CountNamed(ms: seq<Model>, name: string): nat
  {
    if ms == [] then 0 else (if ms[0].name == name then 1 else 0) + CountNamed(ms[1..], name)
  }

  /** Whether at least one model has that name. */
  predicate IsValidModel(ms: Models, name: string)
  {
    CountNamed(ms.models, name) > 0
  }

  /** The search finds the first resource of that name, and finds one exactly when there is one. */
  lemma {:induction false} FindFirst(rs: seq<Ressource>, name: string)
    ensures Find(rs, name).Some? <==> exists i :: 0 <= i < |rs| && rs[i].name == name
    ensures Find(rs, name).Some? ==>
      exists i :: 0 <= i < |rs| && Find(rs, name).value == rs[i]
        && rs[i].name == name && forall j :: 0 <= j < i ==> rs[j].name != name
  {
    if rs != [] && rs[0].name != name {
      FindFirst(rs[1..], name);
      if Find(rs, name).Some? {
        var i :| 0 <= i < |rs[1..]| && Find(rs, name).value == rs[1..][i]
          && rs[1..][i].name == name && forall j :: 0 <= j < i ==> rs[1..][j].name != name;
        assert rs[i + 1] == rs[1..][i];
      } else {
        forall i | 0 <= i < |rs|
          ensures rs[i].name != name
        {
          if i > 0 {
            assert rs[i] == rs[1..][i - 1];
          }
        }
      }
    }
  }

  lemma IsValidRessourceIffListed(m: Model, name: string)
    ensures IsValidRessource(m, name) <==> exists i :: 0 <= i < |m.ressources| && m.ressources[i].name == name
  {
    FindFirst(m.ressources, name);
  }

  lemma {:induction false} CountNamedPositive(ms: seq<Model>, name: string)
    ensures CountNamed(ms, name) > 0 <==> exists i :: 0 <= i < |ms| && ms[i].name == name
  {
    if ms != [] {
      CountNamedPositive(ms[1..], name);
      if CountNamed(ms[1..], name) > 0 {
        var i :| 0 <= i < |ms[1..]| && ms[1..][i].name == name;
        assert ms[i + 1].name == name;
      }
      if exists i :: 0 <= i < |ms| && ms[i].name == name {
        var i :| 0 <= i < |ms| && ms[i].name == name;
        if i > 0 {
          assert ms[1..][i - 1].name == name;
        }
      }
    }
  }

  lemma IsValidModelIffListed(ms: Models, name: string)
    ensures IsValidModel(ms, name) <==> exists i :: 0 <= i < |ms.models| && ms.models[i].name == name
  {
    CountNamedPositive(ms.models, name);
  }

  /** Two resource lists with the same names in the same order accept the same names. */
  lemma {:induction false} OnlyNamesMatter(a: Model, b: Model, name: string)
    requires |a.ressources| == |b.ressources|
    requires forall i :: 0 <= i < |a.ressources| ==> a.ressources[i].name == b.ressources[i].name
    ensures IsValidRessource(a, name) <==> IsValidRessource(b, name)
  {
    IsValidRessourceIffListed(a, name);
    IsValidRessourceIffListed(b, name);
  }
}
