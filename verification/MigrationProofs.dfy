// What running the generated statements guarantees, on any catalogue and in any order of the models.
module MigrationProofs {
  import opened Wrappers
  import opened Migrations

  // --- Additive ---

  ghost predicate Extends(a: Catalogue, b: Catalogue) {
    (forall t <- a.tables :: t in b.tables && b.tables[t].populated == a.tables[t].populated &&
       forall c <- a.tables[t].columns :: c in b.tables[t].columns && b.tables[t].columns[c] == a.tables[t].columns[c]) &&
    (forall i <- a.indexes :: i in b.indexes && b.indexes[i] == a.indexes[i]) &&
    (forall k <- a.constraints :: k in b.constraints && b.constraints[k] == a.constraints[k])
  }

  lemma ExecExtends(fits: Data, cat: Catalogue, s: Statement)
    ensures var r := Exec(fits, cat, s); r.Some? ==> Extends(cat, r.value)
  {
  }

  lemma ExtendsTransitive(a: Catalogue, b: Catalogue, c: Catalogue)
    requires Extends(a, b) && Extends(b, c)
    ensures Extends(a, c)
  {
  }

  // Whatever is run, nothing that was there is changed or removed.
  lemma {:induction false} RunExtends(fits: Data, cat: Catalogue, stmts: seq<Statement>)
    ensures var r := Run(fits, cat, stmts); r.Some? ==> Extends(cat, r.value)
    decreases |stmts|
  {
    hide Exec;
    if stmts != [] {
      var next := Exec(fits, cat, stmts[0]);
      ExecExtends(fits, cat, stmts[0]);
      if next.Some? {
        RunExtends(fits, next.value, stmts[1..]);
        if Run(fits, cat, stmts).Some? { ExtendsTransitive(cat, next.value, Run(fits, cat, stmts).value); }
      }
    }
  }

  // --- Idempotent ---

  // What the statement is for is there, so running it again does nothing.
  predicate Done(cat: Catalogue, s: Statement) {
    match s
    case CreateTable(table, _) => table in cat.tables
    case AddColumn(table, name, _) => HasColumn(cat, table, name)
    case AddRequired(table, name, _) => HasColumn(cat, table, name)
    case CreateIndex(index, _) => index in cat.indexes
    case AddConstraint(constraint, _, _) => constraint in cat.constraints
  }

  lemma ExecIsDone(fits: Data, cat: Catalogue, s: Statement)
    ensures var r := Exec(fits, cat, s); r.Some? ==> Done(r.value, s)
    ensures Done(cat, s) ==> Exec(fits, cat, s) == Some(cat)
  {
  }

  lemma DoneStays(a: Catalogue, b: Catalogue, s: Statement)
    requires Extends(a, b) && Done(a, s)
    ensures Done(b, s)
  {
  }

  lemma {:induction false} RunIsDone(fits: Data, cat: Catalogue, stmts: seq<Statement>)
    ensures var r := Run(fits, cat, stmts); r.Some? ==> forall s <- stmts :: Done(r.value, s)
    decreases |stmts|
  {
    hide Exec, Done;
    if stmts != [] {
      var next := Exec(fits, cat, stmts[0]);
      ExecIsDone(fits, cat, stmts[0]);
      if next.Some? && Run(fits, cat, stmts).Some? {
        var final := Run(fits, cat, stmts).value;
        RunIsDone(fits, next.value, stmts[1..]);
        RunExtends(fits, next.value, stmts[1..]);
        DoneStays(next.value, final, stmts[0]);
        forall s <- stmts ensures Done(final, s) {
          assert s == stmts[0] || s in stmts[1..];
        }
      }
    }
  }

  lemma {:induction false} RunOfDone(fits: Data, cat: Catalogue, stmts: seq<Statement>)
    requires forall s <- stmts :: Done(cat, s)
    ensures Run(fits, cat, stmts) == Some(cat)
    decreases |stmts|
  {
    if stmts != [] {
      ExecIsDone(fits, cat, stmts[0]);
      RunOfDone(fits, cat, stmts[1..]);
    }
  }

  // A second run changes nothing, whatever the rows have become meanwhile.
  lemma SecondRunChangesNothing(models: seq<Model>, fits: Data, later: Data, cat: Catalogue)
    requires Run(fits, cat, Generated(models)).Some?
    ensures var after := Run(fits, cat, Generated(models)).value; Run(later, after, Generated(models)) == Some(after)
  {
    RunIsDone(fits, cat, Generated(models));
    RunOfDone(later, Run(fits, cat, Generated(models)).value, Generated(models));
  }

  lemma {:induction false} RunConcat(fits: Data, cat: Catalogue, first: seq<Statement>, rest: seq<Statement>)
    ensures Run(fits, cat, first + rest)
              == if Run(fits, cat, first).None? then None else Run(fits, Run(fits, cat, first).value, rest)
    decreases |first|
  {
    hide Exec;
    if first == [] {
      assert first + rest == rest;
    } else {
      var next := Exec(fits, cat, first[0]);
      assert (first + rest)[1..] == first[1..] + rest;
      if next.Some? { RunConcat(fits, next.value, first[1..], rest); }
    }
  }

  // --- Which columns a table ends up with ---

  // The statement would add this column to this table.
  predicate Adds(s: Statement, table: string, column: string) {
    (s.AddColumn? || s.AddRequired?) && s.table == table && s.name == column
  }

  predicate Lists(s: Statement, table: string, column: string) {
    s.CreateTable? && s.table == table && exists c <- s.columns :: c.0 == column
  }

  lemma {:induction false} MapHasListed(columns: seq<(string, Column)>, name: string)
    ensures name in ColumnMap(columns) <==> exists c <- columns :: c.0 == name
  {
    if columns != [] {
      var front, last := columns[..|columns| - 1], columns[|columns| - 1];
      MapHasListed(front, name);
      assert last in columns && forall c <- columns :: c in front || c == last;
    }
  }

  lemma ExecColumns(fits: Data, cat: Catalogue, s: Statement, table: string, column: string)
    ensures var r := Exec(fits, cat, s); r.Some? ==>
              (HasColumn(r.value, table, column) <==>
                 HasColumn(cat, table, column) || Adds(s, table, column) || (table !in cat.tables && Lists(s, table, column)))
    ensures var r := Exec(fits, cat, s); r.Some? ==> (table in r.value.tables <==> table in cat.tables || (s.CreateTable? && s.table == table))
  {
    if s.CreateTable? { MapHasListed(s.columns, column); }
  }

  // Running statements that create at most this one table of the name.
  lemma {:induction false} RunColumns(fits: Data, cat: Catalogue, stmts: seq<Statement>, table: string, column: string)
    requires forall s <- stmts :: s.CreateTable? ==> s.table != table
    ensures var r := Run(fits, cat, stmts); r.Some? ==>
              (table in r.value.tables <==> table in cat.tables) &&
              (HasColumn(r.value, table, column) <==> HasColumn(cat, table, column) || exists s <- stmts :: Adds(s, table, column))
    decreases |stmts|
  {
    hide Exec;
    if stmts != [] {
      var next := Exec(fits, cat, stmts[0]);
      ExecColumns(fits, cat, stmts[0], table, column);
      assert stmts[0] in stmts && forall s <- stmts :: s == stmts[0] || s in stmts[1..];
      assert !Lists(stmts[0], table, column);
      if next.Some? { RunColumns(fits, next.value, stmts[1..], table, column); }
    }
  }

  // The statement belongs to this table.
  predicate About(s: Statement, table: string) {
    match s
    case CreateTable(t, _) => t == table
    case AddColumn(t, _, _) => t == table
    case AddRequired(t, _, _) => t == table
    case CreateIndex(_, def) => def.table == table
    case AddConstraint(_, t, _) => t == table
  }

  predicate DeclaresPlain(fields: seq<Field>, column: string) { exists f <- fields :: !IsPrimary(f) && Snake(f.name) == column }

  lemma {:induction false} ForwardsOnlyAdd(table: string, fields: seq<Field>)
    ensures forall s <- Forwards(table, fields) :: (s.AddColumn? || s.AddRequired?) && s.table == table && DeclaresPlain(fields, s.name)
  {
    if fields != [] {
      var front, last := fields[..|fields| - 1], fields[|fields| - 1];
      ForwardsOnlyAdd(table, front);
      forall s <- Forwards(table, fields) ensures (s.AddColumn? || s.AddRequired?) && s.table == table && DeclaresPlain(fields, s.name) {
        if s in Forwards(table, front) {
          var f :| f in front && !IsPrimary(f) && Snake(f.name) == s.name;
          assert f in fields;
        } else {
          assert last in fields;
        }
      }
    }
  }

  lemma {:induction false} ForwardsHas(table: string, fields: seq<Field>, f: Field)
    requires f in fields && !IsPrimary(f)
    ensures Forward(table, f) != [] && Forward(table, f)[0] in Forwards(table, fields) && Adds(Forward(table, f)[0], table, Snake(f.name))
  {
    var front, last := fields[..|fields| - 1], fields[|fields| - 1];
    if f in front { ForwardsHas(table, front, f); } else { assert f == last; }
  }

  lemma {:induction false} MarkedOnlyIndexes(table: string, fields: seq<Field>, mark: Attribute)
    ensures forall s <- Marked(table, fields, mark) :: s.CreateIndex? && s.def.table == table
  {
    if fields != [] { MarkedOnlyIndexes(table, fields[..|fields| - 1], mark); }
  }

  lemma {:induction false} ConstraintsAddNoColumn(table: string, constraints: seq<Constraint>)
    ensures forall s <- ConstraintStatements(table, constraints) :: (s.CreateIndex? || s.AddConstraint?) && About(s, table)
  {
    if constraints != [] { ConstraintsAddNoColumn(table, constraints[..|constraints| - 1]); }
  }

  function Rest(m: Model): seq<Statement> {
    Forwards(m.table, m.fields) + [AddColumn(m.table, "deleted_at", DELETED), AddColumn(m.table, "tenant_id", TENANT)]
    + Marked(m.table, m.fields, Unique) + Marked(m.table, m.fields, Index) + ConstraintStatements(m.table, m.constraints)
  }

  lemma CreateThenRest(m: Model)
    ensures ModelStatements(m) == [CreateTable(m.table, FieldColumns(m.fields) + Appended(m.fields))] + Rest(m)
  {
  }

  lemma RestIsAbout(m: Model)
    ensures forall s <- Rest(m) :: !s.CreateTable? && About(s, m.table)
  {
    ForwardsOnlyAdd(m.table, m.fields);
    MarkedOnlyIndexes(m.table, m.fields, Unique);
    MarkedOnlyIndexes(m.table, m.fields, Index);
    ConstraintsAddNoColumn(m.table, m.constraints);
  }

  // After its table is there, a model's statements add exactly its plain fields and two platform columns.
  lemma RestAdds(m: Model, column: string)
    ensures (exists s <- Rest(m) :: Adds(s, m.table, column)) <==>
              DeclaresPlain(m.fields, column) || column == "deleted_at" || column == "tenant_id"
  {
    hide Forwards, Marked, ConstraintStatements;
    ForwardsOnlyAdd(m.table, m.fields);
    MarkedOnlyIndexes(m.table, m.fields, Unique);
    MarkedOnlyIndexes(m.table, m.fields, Index);
    ConstraintsAddNoColumn(m.table, m.constraints);
    var platform := [AddColumn(m.table, "deleted_at", DELETED), AddColumn(m.table, "tenant_id", TENANT)];
    assert platform[0] in Rest(m) && platform[1] in Rest(m);
    if DeclaresPlain(m.fields, column) {
      var f :| f in m.fields && !IsPrimary(f) && Snake(f.name) == column;
      ForwardsHas(m.table, m.fields, f);
      assert Forward(m.table, f)[0] in Rest(m);
    }
  }

  lemma ListedColumns(m: Model, column: string)
    ensures (exists c <- FieldColumns(m.fields) + Appended(m.fields) :: c.0 == column) <==>
              Declares(m.fields, column) || column in ["created_at", "updated_at", "deleted_at", "tenant_id"]
  {
    var own, extra := FieldColumns(m.fields), Appended(m.fields);
    if Declares(m.fields, column) {
      var f :| f in m.fields && Snake(f.name) == column;
      var i :| 0 <= i < |m.fields| && m.fields[i] == f;
      assert own[i].0 == column && own[i] in own + extra;
    }
    forall c <- own ensures Declares(m.fields, c.0) {
      var i :| 0 <= i < |own| && own[i] == c;
      assert m.fields[i] in m.fields;
    }
    AppendedColumns(m.fields, column);
    if exists c <- extra :: c.0 == column {
      var c :| c in extra && c.0 == column;
      assert c in own + extra;
    }
  }

  lemma AppendedColumns(fields: seq<Field>, column: string)
    ensures (exists c <- Appended(fields) :: c.0 == column) <==>
              !Declares(fields, column) && column in ["created_at", "updated_at", "deleted_at", "tenant_id"]
  {
    var extra := Appended(fields);
    assert !Declares(fields, "created_at") ==> ("created_at", STAMP) in extra;
    assert !Declares(fields, "updated_at") ==> ("updated_at", STAMP) in extra;
    assert !Declares(fields, "deleted_at") ==> ("deleted_at", DELETED) in extra;
    assert !Declares(fields, "tenant_id") ==> ("tenant_id", TENANT) in extra;
  }

  // What the generator guarantees of a column: present whenever it is a plain declared field or one of the
  // two reconciled platform columns; for anything else the table must be new and list it, or have had it.
  predicate EndsUpWith(cat: Catalogue, m: Model, column: string) {
    DeclaresPlain(m.fields, column) || column == "deleted_at" || column == "tenant_id" ||
    (if m.table in cat.tables then HasColumn(cat, m.table, column)
     else Declares(m.fields, column) || column == "created_at" || column == "updated_at")
  }

  lemma ModelColumns(fits: Data, cat: Catalogue, m: Model, column: string)
    ensures var r := Run(fits, cat, ModelStatements(m)); r.Some? ==>
              m.table in r.value.tables && (HasColumn(r.value, m.table, column) <==> EndsUpWith(cat, m, column))
  {
    hide Run, Exec, Rest, ModelStatements;
    var create := CreateTable(m.table, FieldColumns(m.fields) + Appended(m.fields));
    CreateThenRest(m);
    RestAdds(m, column);
    RestIsAbout(m);
    ListedColumns(m, column);
    RunConcat(fits, cat, [create], Rest(m));
    RunSingle(fits, cat, create);
    var created := Exec(fits, cat, create);
    ExecColumns(fits, cat, create, m.table, column);
    if created.Some? { RunColumns(fits, created.value, Rest(m), m.table, column); }
  }

  lemma RunSingle(fits: Data, cat: Catalogue, s: Statement)
    ensures Run(fits, cat, [s]) == Exec(fits, cat, s)
  {
    assert [s][1..] == [];
  }

  // Models name different tables.
  ghost predicate Apart(models: seq<Model>) {
    forall i, j :: 0 <= i < j < |models| ==> models[i].table != models[j].table
  }

  lemma OtherModelKeeps(fits: Data, cat: Catalogue, m: Model, table: string, column: string)
    requires m.table != table
    ensures var r := Run(fits, cat, ModelStatements(m)); r.Some? ==>
              (table in r.value.tables <==> table in cat.tables) && (HasColumn(r.value, table, column) <==> HasColumn(cat, table, column))
  {
    CreateThenRest(m);
    RestIsAbout(m);
    RunColumns(fits, cat, ModelStatements(m), table, column);
  }

  // Whatever order the models come in, each table ends up with exactly these columns.
  lemma {:induction false} TableColumns(fits: Data, cat: Catalogue, models: seq<Model>, i: nat, column: string)
    requires Apart(models) && i < |models|
    ensures var r := Run(fits, cat, Tables(models)); r.Some? ==>
              models[i].table in r.value.tables && (HasColumn(r.value, models[i].table, column) <==> EndsUpWith(cat, models[i], column))
    decreases |models|
  {
    hide Run, EndsUpWith, HasColumn;
    var front, last := models[..|models| - 1], models[|models| - 1];
    RunConcat(fits, cat, Tables(front), ModelStatements(last));
    var before := Run(fits, cat, Tables(front));
    if before.Some? {
      if i < |front| {
        TableColumns(fits, cat, front, i, column);
        OtherModelKeeps(fits, before.value, last, models[i].table, column);
      } else {
        TablesLeaveAlone(fits, cat, front, last.table, column);
        ModelColumns(fits, before.value, last, column);
        SameEnd(cat, before.value, last, column);
      }
    }
  }

  lemma SameEnd(a: Catalogue, b: Catalogue, m: Model, column: string)
    requires (m.table in a.tables <==> m.table in b.tables) && (HasColumn(a, m.table, column) <==> HasColumn(b, m.table, column))
    ensures EndsUpWith(a, m, column) <==> EndsUpWith(b, m, column)
  {
  }

  lemma {:induction false} TablesLeaveAlone(fits: Data, cat: Catalogue, models: seq<Model>, table: string, column: string)
    requires forall m <- models :: m.table != table
    ensures var r := Run(fits, cat, Tables(models)); r.Some? ==>
              (table in r.value.tables <==> table in cat.tables) && (HasColumn(r.value, table, column) <==> HasColumn(cat, table, column))
  {
    hide Run, HasColumn;
    if models == [] {
      RunOfNothing(fits, cat);
    } else {
      var front, last := models[..|models| - 1], models[|models| - 1];
      RunConcat(fits, cat, Tables(front), ModelStatements(last));
      TablesLeaveAlone(fits, cat, front, table, column);
      var before := Run(fits, cat, Tables(front));
      if before.Some? { OtherModelKeeps(fits, before.value, last, table, column); }
    }
  }

  lemma RunOfNothing(fits: Data, cat: Catalogue)
    ensures Run(fits, cat, []) == Some(cat)
  {
  }

  // --- References and checks ---

  ghost predicate IsReference(s: Statement, all: seq<Model>, models: seq<Model>) {
    s.AddConstraint? && s.rule.ForeignKey? &&
    (exists m <- models :: m.table == s.table && Declares(m.fields, s.rule.column)) && exists t <- all :: t.table == s.rule.target
  }

  lemma {:induction false} TableOfIsOne(models: seq<Model>, name: string)
    ensures TableOf(models, name).Some? ==> exists t <- models :: t.name == name && t.table == TableOf(models, name).value
  {
    if models != [] && models[|models| - 1].name != name { TableOfIsOne(models[..|models| - 1], name); }
  }

  lemma {:induction false} ModelReferences(all: seq<Model>, models: seq<Model>, m: Model, rs: seq<Relationship>)
    requires m in models
    ensures forall s <- References(all, m, rs) :: IsReference(s, all, models)
  {
    if rs != [] {
      ModelReferences(all, models, m, rs[..|rs| - 1]);
      TableOfIsOne(all, rs[|rs| - 1].model);
    }
  }

  lemma {:induction false} ReferencesAre(all: seq<Model>, models: seq<Model>)
    ensures forall s <- AllReferences(all, models) :: IsReference(s, all, models)
  {
    if models != [] {
      var front, last := models[..|models| - 1], models[|models| - 1];
      ReferencesAre(all, front);
      ModelReferences(all, models, last, last.relationships);
      forall s <- AllReferences(all, front) ensures IsReference(s, all, models) {
        var m :| m in front && m.table == s.table && Declares(m.fields, s.rule.column);
        assert m in models;
      }
    }
  }

  ghost predicate IsCheck(s: Statement, models: seq<Model>) {
    s.AddConstraint? && s.rule.Check? && s.rule.over.Some? && exists m <- models :: m.table == s.table && Declares(m.fields, s.rule.over.value)
  }

  lemma {:induction false} RulesAreChecks(models: seq<Model>, m: Model, f: Field, rules: seq<Rule>)
    requires m in models && f in m.fields
    ensures forall s <- RuleChecks(m.table, f, rules) :: IsCheck(s, models)
  {
    if rules != [] { RulesAreChecks(models, m, f, rules[..|rules| - 1]); }
  }

  lemma {:induction false} FieldNamedIsOne(fields: seq<Field>, name: string)
    ensures FieldNamed(fields, name).Some? ==> FieldNamed(fields, name).value in fields
  {
    if fields != [] { FieldNamedIsOne(fields[..|fields| - 1], name); }
  }

  lemma {:induction false} ModelChecksAre(models: seq<Model>, m: Model, validation: seq<(string, seq<Rule>)>)
    requires m in models
    ensures forall s <- ModelChecks(m, validation) :: IsCheck(s, models)
  {
    if validation != [] {
      var (name, rules) := validation[|validation| - 1];
      ModelChecksAre(models, m, validation[..|validation| - 1]);
      FieldNamedIsOne(m.fields, name);
      if FieldNamed(m.fields, name).Some? { RulesAreChecks(models, m, FieldNamed(m.fields, name).value, rules); }
    }
  }

  lemma {:induction false} ChecksAre(models: seq<Model>)
    ensures forall s <- AllChecks(models) :: IsCheck(s, models)
  {
    if models != [] {
      var front, last := models[..|models| - 1], models[|models| - 1];
      ChecksAre(front);
      ModelChecksAre(models, last, last.validation);
      forall s <- AllChecks(front) ensures IsCheck(s, models) {
        var m :| m in front && m.table == s.table && Declares(m.fields, s.rule.over.value);
        assert m in models;
      }
    }
  }

  lemma Constraining(models: seq<Model>)
    ensures forall s <- AllReferences(models, models) + AllChecks(models) :: s.AddConstraint?
  {
    ReferencesAre(models, models);
    ChecksAre(models);
  }

  // The exact columns of every table after a successful run, in any order of the models.
  lemma FinalColumns(fits: Data, cat: Catalogue, models: seq<Model>, i: nat, column: string)
    requires Apart(models) && i < |models| && Run(fits, cat, Generated(models)).Some?
    ensures HasColumn(Run(fits, cat, Generated(models)).value, models[i].table, column) <==> EndsUpWith(cat, models[i], column)
  {
    hide Run, EndsUpWith, HasColumn, Tables, AllReferences, AllChecks;
    var later := AllReferences(models, models) + AllChecks(models);
    assert Generated(models) == Tables(models) + later;
    RunConcat(fits, cat, Tables(models), later);
    TableColumns(fits, cat, models, i, column);
    Constraining(models);
    RunColumns(fits, Run(fits, cat, Tables(models)).value, later, models[i].table, column);
  }

  // A successful run leaves every plain declared column and both reconciled platform columns in place.
  lemma DeclaredColumnsArePresent(fits: Data, cat: Catalogue, models: seq<Model>, i: nat)
    requires Apart(models) && i < |models| && Run(fits, cat, Generated(models)).Some?
    ensures var after := Run(fits, cat, Generated(models)).value;
            (forall f <- models[i].fields :: !IsPrimary(f) ==> HasColumn(after, models[i].table, Snake(f.name))) &&
            HasColumn(after, models[i].table, "deleted_at") && HasColumn(after, models[i].table, "tenant_id")
  {
    hide Run, HasColumn, Generated;
    FinalColumns(fits, cat, models, i, "deleted_at");
    FinalColumns(fits, cat, models, i, "tenant_id");
    forall f <- models[i].fields | !IsPrimary(f) ensures HasColumn(Run(fits, cat, Generated(models)).value, models[i].table, Snake(f.name)) {
      FinalColumns(fits, cat, models, i, Snake(f.name));
    }
  }

  // A table from before a primary or timestamp column was declared does not get it: only these two kinds
  // of column are not brought forward.
  lemma NotBroughtForward(fits: Data, cat: Catalogue, models: seq<Model>, i: nat, column: string)
    requires Apart(models) && i < |models| && Run(fits, cat, Generated(models)).Some?
    requires models[i].table in cat.tables && !DeclaresPlain(models[i].fields, column) && column != "deleted_at" && column != "tenant_id"
    ensures HasColumn(Run(fits, cat, Generated(models)).value, models[i].table, column) <==> HasColumn(cat, models[i].table, column)
  {
    FinalColumns(fits, cat, models, i, column);
  }

  // A reference names nothing missing exactly when its own column and the target's id are there; both are
  // known from the schema and the old catalogue.
  lemma ReferenceResolvesIff(fits: Data, cat: Catalogue, models: seq<Model>, i: nat, j: nat, column: string)
    requires Apart(models) && i < |models| && j < |models| && Run(fits, cat, Tables(models)).Some?
    ensures var built := Run(fits, cat, Tables(models)).value; var key := ForeignKey(column, models[j].table);
            Resolves(built, models[i].table, key) <==> EndsUpWith(cat, models[i], column) && EndsUpWith(cat, models[j], "id")
  {
    TableColumns(fits, cat, models, i, column);
    TableColumns(fits, cat, models, j, "id");
  }

  // Every model declares an id, and tables that are there already have their models' primary columns.
  ghost predicate KeysReady(cat: Catalogue, models: seq<Model>) {
    forall m <- models :: Declares(m.fields, "id") &&
      (m.table in cat.tables ==> forall f <- m.fields :: IsPrimary(f) ==> HasColumn(cat, m.table, Snake(f.name)))
  }

  lemma KeysReadyEndsUp(cat: Catalogue, models: seq<Model>, m: Model, column: string)
    requires KeysReady(cat, models) && m in models && Declares(m.fields, column)
    ensures EndsUpWith(cat, m, column)
  {
    var f :| f in m.fields && Snake(f.name) == column;
  }

  predicate NamesWhatIsThere(cat: Catalogue, s: Statement) { s.AddConstraint? && Resolves(cat, s.table, s.rule) }

  // Then no reference and no validation check names a missing table or column, in whatever order the
  // models, their fields and their relationships are iterated.
  lemma NothingMissingIsNamed(fits: Data, cat: Catalogue, models: seq<Model>)
    requires Apart(models) && KeysReady(cat, models) && Run(fits, cat, Tables(models)).Some?
    ensures forall s <- AllReferences(models, models) + AllChecks(models) :: NamesWhatIsThere(Run(fits, cat, Tables(models)).value, s)
  {
    hide Run, Tables, AllReferences, AllChecks, EndsUpWith;
    var built := Run(fits, cat, Tables(models)).value;
    ReferencesAre(models, models);
    ChecksAre(models);
    forall s <- AllReferences(models, models) + AllChecks(models) ensures NamesWhatIsThere(built, s) {
      if s in AllReferences(models, models) {
        ReferenceResolves(fits, cat, models, s);
      } else {
        CheckResolves(fits, cat, models, s);
      }
    }
  }

  lemma ReferenceResolves(fits: Data, cat: Catalogue, models: seq<Model>, s: Statement)
    requires Apart(models) && KeysReady(cat, models) && Run(fits, cat, Tables(models)).Some? && IsReference(s, models, models)
    ensures Resolves(Run(fits, cat, Tables(models)).value, s.table, s.rule)
  {
    hide Run, Tables, EndsUpWith;
    var m :| m in models && m.table == s.table && Declares(m.fields, s.rule.column);
    var t :| t in models && t.table == s.rule.target;
    var i :| 0 <= i < |models| && models[i] == m;
    var j :| 0 <= j < |models| && models[j] == t;
    KeysReadyEndsUp(cat, models, m, s.rule.column);
    KeysReadyEndsUp(cat, models, t, "id");
    TableColumns(fits, cat, models, i, s.rule.column);
    TableColumns(fits, cat, models, j, "id");
  }

  lemma CheckResolves(fits: Data, cat: Catalogue, models: seq<Model>, s: Statement)
    requires Apart(models) && KeysReady(cat, models) && Run(fits, cat, Tables(models)).Some? && IsCheck(s, models)
    ensures Resolves(Run(fits, cat, Tables(models)).value, s.table, s.rule)
  {
    hide Run, Tables, EndsUpWith;
    var m :| m in models && m.table == s.table && Declares(m.fields, s.rule.over.value);
    var i :| 0 <= i < |models| && models[i] == m;
    KeysReadyEndsUp(cat, models, m, s.rule.over.value);
    TableColumns(fits, cat, models, i, s.rule.over.value);
  }

  // --- Everything declared is there ---

  lemma {:induction false} StatementsAreGenerated(models: seq<Model>, m: Model, s: Statement)
    requires m in models && s in ModelStatements(m)
    ensures s in Tables(models)
  {
    var front, last := models[..|models| - 1], models[|models| - 1];
    if m in front { StatementsAreGenerated(front, m, s); } else { assert m == last; }
  }

  lemma {:induction false} MarkedHas(table: string, fields: seq<Field>, f: Field, mark: Attribute)
    requires f in fields && !IsPrimary(f) && mark in f.attributes
    ensures MarkIndex(table, Snake(f.name), mark) in Marked(table, fields, mark)
  {
    var front, last := fields[..|fields| - 1], fields[|fields| - 1];
    if f in front { MarkedHas(table, front, f, mark); } else { assert f == last; }
  }

  lemma {:induction false} ConstraintHas(table: string, constraints: seq<Constraint>, n: nat)
    requires n < |constraints|
    ensures ConstraintStatement(table, n, constraints[n]) in ConstraintStatements(table, constraints)
  {
    if n < |constraints| - 1 { ConstraintHas(table, constraints[..|constraints| - 1], n); }
  }

  // After a successful run every annotation and every model constraint has its index or constraint, under
  // its generated name.
  lemma AnnotationsTakeEffect(fits: Data, cat: Catalogue, models: seq<Model>, m: Model)
    requires m in models && Run(fits, cat, Generated(models)).Some?
    ensures var after := Run(fits, cat, Generated(models)).value;
            (forall f <- m.fields :: !IsPrimary(f) && Unique in f.attributes ==> "uq_" + m.table + "_" + Snake(f.name) in after.indexes) &&
            (forall f <- m.fields :: !IsPrimary(f) && Index in f.attributes ==> "idx_" + m.table + "_" + Snake(f.name) in after.indexes) &&
            (forall n :: 0 <= n < |m.constraints| ==> Done(after, ConstraintStatement(m.table, n, m.constraints[n])))
  {
    hide Run, Marked, ConstraintStatements, ConstraintStatement, Forwards, Tables, AllReferences, AllChecks;
    RunIsDone(fits, cat, Generated(models));
    forall s <- ModelStatements(m) ensures s in Generated(models) {
      StatementsAreGenerated(models, m, s);
    }
    forall f <- m.fields | !IsPrimary(f) && Unique in f.attributes ensures MarkIndex(m.table, Snake(f.name), Unique) in ModelStatements(m) {
      MarkedHas(m.table, m.fields, f, Unique);
    }
    forall f <- m.fields | !IsPrimary(f) && Index in f.attributes ensures MarkIndex(m.table, Snake(f.name), Index) in ModelStatements(m) {
      MarkedHas(m.table, m.fields, f, Index);
    }
    forall n | 0 <= n < |m.constraints| ensures ConstraintStatement(m.table, n, m.constraints[n]) in ModelStatements(m) {
      ConstraintHas(m.table, m.constraints, n);
    }
  }
}
