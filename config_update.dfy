/** The configuration merge of `src/update.py`. A configuration file is the
    sequence of its assignment statements, in the order `ast.walk` visits
    them; its assignments are the dictionary `get_assignments` builds from
    them, a later assignment to a name replacing an earlier one. Values are
    whatever Python literals the files hold; the file text, `ast.parse`,
    `literal_eval` and `repr` are not modelled (an appended line is read back
    as the assignment it was written from). */
module ConfigUpdate {

  datatype Assignment<V> = Assignment(name: string, value: V)

  /** The dictionary of `get_assignments`. */
  function Bindings<V>(statements: seq<Assignment<V>>): map<string, V> {
    if |statements| == 0 then map[]
    else
      var last := statements[|statements| - 1];
      Bindings(statements[..|statements| - 1])[last.name := last.value]
  }

  /** A name is assigned exactly when some statement assigns it, and its value
      is that of the last statement assigning it. */
  lemma {:induction false} BindingsLastWins<V>(statements: seq<Assignment<V>>, k: string)
    ensures k in Bindings(statements) <==> exists i :: 0 <= i < |statements| && statements[i].name == k
    ensures forall i ::
      (0 <= i < |statements| && statements[i].name == k && (forall j :: i < j < |statements| ==> statements[j].name != k))
      ==> Bindings(statements)[k] == statements[i].value
  {
    if |statements| > 0 {
      var init := statements[..|statements| - 1];
      BindingsLastWins(init, k);
      if exists i :: 0 <= i < |statements| && statements[i].name == k {
        var i :| 0 <= i < |statements| && statements[i].name == k;
        if i < |init| {
          assert init[i].name == k;
        }
      }
      forall i | 0 <= i < |init| && statements[i].name == k
        && (forall j :: i < j < |statements| ==> statements[j].name != k)
        ensures Bindings(statements)[k] == statements[i].value
      {
        assert init[i] == statements[i];
        assert forall j :: i < j < |init| ==> init[j].name != k by {
          forall j | i < j < |init| ensures init[j].name != k {
            assert init[j] == statements[j];
          }
        }
      }
    }
  }

  /** The dictionary comprehension of `update_config` and
      `display_config_differences`: the example's assignments whose name the
      current configuration does not assign, with the example's values. */
  function Missing<V>(current: map<string, V>, example: map<string, V>): (missing: map<string, V>)
    ensures forall k :: k in missing <==> k in example && k !in current
    ensures forall k :: k in missing ==> missing[k] == example[k]
  {
    map k | k in example && k !in current :: example[k]
  }

  /** `display_config_differences`: whether anything is missing. The listing
      it prints is not modelled. */
  function DisplayConfigDifferences<V>(current: seq<Assignment<V>>, example: seq<Assignment<V>>): bool {
    Missing(Bindings(current), Bindings(example)).Keys != {}
  }

  /** The report is `True` exactly when the example assigns a name the current
      configuration does not. */
  lemma {:induction false} DisplayReportsMissing<V>(current: seq<Assignment<V>>, example: seq<Assignment<V>>)
    ensures DisplayConfigDifferences(current, example) <==> exists k :: k in Bindings(example) && k !in Bindings(current)
  {
    var missing := Missing(Bindings(current), Bindings(example));
    if missing.Keys != {} {
      var k :| k in missing.Keys;
      assert k in Bindings(example) && k !in Bindings(current);
    }
    if exists k :: k in Bindings(example) && k !in Bindings(current) {
      var k :| k in Bindings(example) && k !in Bindings(current);
      assert k in missing.Keys;
    }
  }

  /** A configuration file that lines can be appended to. */
  class ConfigFile<V> {
    var statements: seq<Assignment<V>>

    constructor (statements: seq<Assignment<V>>)
      ensures this.statements == statements
    {
      this.statements := statements;
    }

    /** The file's assignments as `get_assignments` reads them. */
    function Assignments(): map<string, V>
      reads this
    {
      Bindings(statements)
    }

    /** `f.write('\n{} = {!r}'.format(var, value))` on the file opened for
        appending. */
    method Append(a: Assignment<V>)
      modifies this
      ensures statements == old(statements) + [a]
      ensures Assignments() == old(Assignments())[a.name := a.value]
    {
      statements := statements + [a];
      assert statements[..|statements| - 1] == old(statements);
    }
  }

  /** `update_config`: append every missing assignment; the file is opened only
      when something is missing. The lines written are the missing assignments
      after everything that was there before. */
  method UpdateConfig<V>(current: ConfigFile<V>, example: seq<Assignment<V>>)
    modifies current
    ensures current.Assignments() == Merged(old(current.Assignments()), Bindings(example))
    ensures |old(current.statements)| <= |current.statements|
    ensures current.statements[..|old(current.statements)|] == old(current.statements)
    ensures forall j :: |old(current.statements)| <= j < |current.statements| ==>
      current.statements[j].name in Missing(old(current.Assignments()), Bindings(example))
    ensures Missing(old(current.Assignments()), Bindings(example)).Keys == {} ==> current.statements == old(current.statements)
    ensures |current.statements| == |old(current.statements)| + |Missing(old(current.Assignments()), Bindings(example))|
  {
    var missing := Missing(current.Assignments(), Bindings(example));
    if missing.Keys != {} {
      AppendAll(current, missing);
    }
  }

  /** The loop of `update_config` over the missing assignments. The order in
      which a Python dictionary yields them is not modelled. */
  method AppendAll<V>(current: ConfigFile<V>, missing: map<string, V>)
    modifies current
    ensures current.Assignments() == old(current.Assignments()) + missing
    ensures |old(current.statements)| <= |current.statements|
    ensures current.statements[..|old(current.statements)|] == old(current.statements)
    ensures forall j :: |old(current.statements)| <= j < |current.statements| ==> current.statements[j].name in missing
    ensures |current.statements| == |old(current.statements)| + |missing|
  {
    ghost var before := current.Assignments();
    ghost var original := current.statements;
    var todo := missing.Keys;
    DoneNone(missing);
    WrittenNone(missing);
    while todo != {}
      invariant todo <= missing.Keys
      invariant current.Assignments() == before + Done(missing, todo)
      invariant AppendedFrom(original, current.statements, missing.Keys)
      invariant |current.statements| == |original| + Written(missing, todo)
      decreases |todo|
    {
      var name :| name in todo;
      ghost var prior := current.statements;
      current.Append(Assignment(name, missing[name]));
      AppendedOneMore(original, prior, Assignment(name, missing[name]), missing.Keys);
      UnionUpdate(before, Done(missing, todo), name, missing[name]);
      DoneOneMore(missing, todo, name);
      WrittenOneMore(missing, todo, name);
      todo := todo - {name};
    }
    DoneAll(missing);
    WrittenAll(missing);
  }

  /** The missing assignments already written while `todo` remain. */
  ghost function Done<V>(missing: map<string, V>, todo: set<string>): map<string, V> {
    map k | k in missing && k !in todo :: missing[k]
  }

  /** How many missing assignments are already written while `todo` remain. */
  ghost function Written<V>(missing: map<string, V>, todo: set<string>): nat {
    |missing.Keys - todo|
  }

  lemma {:induction false} WrittenNone<V>(missing: map<string, V>)
    ensures Written(missing, missing.Keys) == 0
  {
    assert missing.Keys - missing.Keys == {};
  }

  lemma {:induction false} WrittenOneMore<V>(missing: map<string, V>, todo: set<string>, name: string)
    requires name in todo && todo <= missing.Keys
    ensures Written(missing, todo - {name}) == Written(missing, todo) + 1
  {
    assert missing.Keys - (todo - {name}) == (missing.Keys - todo) + {name};
  }

  lemma {:induction false} WrittenAll<V>(missing: map<string, V>)
    ensures Written(missing, {}) == |missing|
  {
    assert missing.Keys - {} == missing.Keys;
  }

  lemma {:induction false} DoneNone<V>(missing: map<string, V>)
    ensures Done(missing, missing.Keys) == map[]
  {
  }

  lemma {:induction false} DoneOneMore<V>(missing: map<string, V>, todo: set<string>, name: string)
    requires name in todo && todo <= missing.Keys
    ensures Done(missing, todo - {name}) == Done(missing, todo)[name := missing[name]]
  {
  }

  lemma {:induction false} DoneAll<V>(missing: map<string, V>)
    ensures Done(missing, {}) == missing
  {
  }

  /** `now` is `original` followed by assignments to names in `names` only. */
  ghost predicate AppendedFrom<V>(original: seq<Assignment<V>>, now: seq<Assignment<V>>, names: set<string>) {
    && |original| <= |now| && now[..|original|] == original
    && forall j :: |original| <= j < |now| ==> now[j].name in names
  }

  lemma {:induction false} AppendedOneMore<V>(original: seq<Assignment<V>>, prior: seq<Assignment<V>>, a: Assignment<V>,
                                              names: set<string>)
    requires AppendedFrom(original, prior, names) && a.name in names
    ensures AppendedFrom(original, prior + [a], names)
  {
    assert (prior + [a])[..|original|] == prior[..|original|];
  }

  /** The end of `src/update.py`: show the differences and, when there are
      any, merge. `updated` is what `display_config_differences` returned. */
  method UpdateScript<V>(current: ConfigFile<V>, example: seq<Assignment<V>>) returns (updated: bool)
    modifies current
    ensures updated == DisplayConfigDifferences(old(current.statements), example)
    ensures !updated ==> current.statements == old(current.statements)
    ensures Missing(current.Assignments(), Bindings(example)).Keys == {}
  {
    updated := DisplayConfigDifferences(current.statements, example);
    if updated {
      UpdateConfig(current, example);
      MergeIdempotent(old(current.Assignments()), Bindings(example));
    }
  }

  lemma {:induction false} UnionUpdate<V>(a: map<string, V>, b: map<string, V>, k: string, v: V)
    ensures (a + b)[k := v] == a + b[k := v]
  {
  }

  /** The configuration after the merge: the current assignments, plus the
      missing ones. */
  function Merged<V>(current: map<string, V>, example: map<string, V>): map<string, V> {
    current + Missing(current, example)
  }

  /** The merge only adds: every assignment of the current configuration keeps
      its value. */
  lemma {:induction false} MergeKeepsCurrent<V>(current: map<string, V>, example: map<string, V>)
    ensures forall k :: k in current ==> k in Merged(current, example) && Merged(current, example)[k] == current[k]
  {
  }

  /** After the merge every name the example assigns is assigned, and nothing
      else was added. */
  lemma {:induction false} MergeCoversExample<V>(current: map<string, V>, example: map<string, V>)
    ensures Merged(current, example).Keys == current.Keys + example.Keys
  {
  }

  /** A second run finds nothing missing, so it writes nothing. */
  lemma {:induction false} MergeIdempotent<V>(current: map<string, V>, example: map<string, V>)
    ensures Missing(Merged(current, example), example).Keys == {}
    ensures Merged(Merged(current, example), example) == Merged(current, example)
  {
  }
}
