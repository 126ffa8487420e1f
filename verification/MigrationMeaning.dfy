// What the generated catalogue means: which columns, indexes, references and checks a run leaves, and which
// values they let in.
module MigrationMeaning {
  import opened Wrappers
  import opened Migrations
  import opened MigrationProofs

  // --- Where everything new comes from ---

  ghost predicate Defines(s: Statement, table: string, column: string, def: Column) {
    match s
    case AddColumn(t, n, c) => t == table && n == column && c == def
    case AddRequired(t, n, sqlType) => t == table && n == column && def == Column(sqlType, None, true, false)
    case CreateTable(t, columns) => t == table && (column, def) in columns
    case _ => false
  }

  lemma {:induction false} MapHoldsListed(columns: seq<(string, Column)>, name: string)
    requires name in ColumnMap(columns)
    ensures (name, ColumnMap(columns)[name]) in columns
  {
    var front, last := columns[..|columns| - 1], columns[|columns| - 1];
    if last.0 != name { MapHoldsListed(front, name); }
  }

  lemma ExecDefines(fits: Data, cat: Catalogue, s: Statement, table: string, column: string)
    requires Exec(fits, cat, s).Some? && HasColumn(Exec(fits, cat, s).value, table, column)
    ensures var def := Exec(fits, cat, s).value.tables[table].columns[column];
            (HasColumn(cat, table, column) && def == cat.tables[table].columns[column]) || Defines(s, table, column, def)
  {
    if s.CreateTable? && s.table == table && table !in cat.tables { MapHoldsListed(s.columns, column); }
  }

  // A column that was not there is one some statement defines.
  lemma {:induction false} RunDefines(fits: Data, cat: Catalogue, stmts: seq<Statement>, table: string, column: string)
    requires Run(fits, cat, stmts).Some? && HasColumn(Run(fits, cat, stmts).value, table, column) && !HasColumn(cat, table, column)
    ensures exists s <- stmts :: Defines(s, table, column, Run(fits, cat, stmts).value.tables[table].columns[column])
    decreases |stmts|
  {
    hide Exec, Defines;
    var next := Exec(fits, cat, stmts[0]).value;
    assert stmts[0] in stmts;
    if HasColumn(next, table, column) {
      ExecDefines(fits, cat, stmts[0], table, column);
      RunExtends(fits, next, stmts[1..]);
    } else {
      RunDefines(fits, next, stmts[1..], table, column);
      var s :| s in stmts[1..] && Defines(s, table, column, Run(fits, cat, stmts).value.tables[table].columns[column]);
      assert s in stmts;
    }
  }

  lemma {:induction false} RunIndexes(fits: Data, cat: Catalogue, stmts: seq<Statement>, index: string)
    requires Run(fits, cat, stmts).Some? && index in Run(fits, cat, stmts).value.indexes && index !in cat.indexes
    ensures CreateIndex(index, Run(fits, cat, stmts).value.indexes[index]) in stmts
    decreases |stmts|
  {
    var next := Exec(fits, cat, stmts[0]).value;
    assert stmts[0] in stmts;
    if index in next.indexes {
      RunExtends(fits, next, stmts[1..]);
    } else {
      RunIndexes(fits, next, stmts[1..], index);
      assert CreateIndex(index, Run(fits, cat, stmts).value.indexes[index]) in stmts[1..];
    }
  }

  lemma {:induction false} RunConstraints(fits: Data, cat: Catalogue, stmts: seq<Statement>, name: string)
    requires Run(fits, cat, stmts).Some? && name in Run(fits, cat, stmts).value.constraints && name !in cat.constraints
    ensures var (table, rule) := Run(fits, cat, stmts).value.constraints[name]; AddConstraint(name, table, rule) in stmts
    decreases |stmts|
  {
    var next := Exec(fits, cat, stmts[0]).value;
    assert stmts[0] in stmts;
    if name in next.constraints {
      RunExtends(fits, next, stmts[1..]);
    } else {
      RunConstraints(fits, next, stmts[1..], name);
      var (table, rule) := Run(fits, cat, stmts).value.constraints[name];
      assert AddConstraint(name, table, rule) in stmts[1..];
    }
  }

  // No two statements give the name to different things.
  ghost predicate NamesOneIndex(models: seq<Model>, index: string) {
    forall s <- Generated(models), t <- Generated(models) :: s.CreateIndex? && t.CreateIndex? && s.index == index == t.index ==> s.def == t.def
  }

  ghost predicate NamesOneConstraint(models: seq<Model>, name: string) {
    forall s <- Generated(models), t <- Generated(models) ::
      s.AddConstraint? && t.AddConstraint? && s.constraint == name == t.constraint ==> s.table == t.table && s.rule == t.rule
  }

  lemma IndexTakesEffect(fits: Data, cat: Catalogue, models: seq<Model>, s: Statement)
    requires Run(fits, cat, Generated(models)).Some? && s in Generated(models) && s.CreateIndex?
    requires s.index !in cat.indexes && NamesOneIndex(models, s.index)
    ensures var after := Run(fits, cat, Generated(models)).value; s.index in after.indexes && after.indexes[s.index] == s.def
  {
    hide Run, Generated;
    RunIsDone(fits, cat, Generated(models));
    RunIndexes(fits, cat, Generated(models), s.index);
  }

  lemma ConstraintTakesEffect(fits: Data, cat: Catalogue, models: seq<Model>, s: Statement)
    requires Run(fits, cat, Generated(models)).Some? && s in Generated(models) && s.AddConstraint?
    requires s.constraint !in cat.constraints && NamesOneConstraint(models, s.constraint)
    ensures var after := Run(fits, cat, Generated(models)).value;
            s.constraint in after.constraints && after.constraints[s.constraint] == (s.table, s.rule)
  {
    hide Run, Generated;
    RunIsDone(fits, cat, Generated(models));
    RunConstraints(fits, cat, Generated(models), s.constraint);
  }

  // --- Columns ---

  // No two fields are the same column.
  ghost predicate ColumnsApart(fields: seq<Field>) {
    forall f <- fields, g <- fields :: Snake(f.name) == Snake(g.name) ==> f == g
  }

  predicate Platform(column: string) { column == "deleted_at" || column == "tenant_id" }

  lemma {:induction false} ForwardsAreOf(table: string, fields: seq<Field>, s: Statement)
    requires s in Forwards(table, fields)
    ensures exists f <- fields :: !IsPrimary(f) && s in Forward(table, f)
  {
    var front, last := fields[..|fields| - 1], fields[|fields| - 1];
    if s in Forwards(table, front) {
      ForwardsAreOf(table, front, s);
      var f :| f in front && !IsPrimary(f) && s in Forward(table, f);
      assert f in fields;
    } else {
      assert last in fields;
    }
  }

  lemma ModelDefines(m: Model, s: Statement, f: Field, def: Column)
    requires s in ModelStatements(m) && ColumnsApart(m.fields) && f in m.fields && !IsPrimary(f) && !Platform(Snake(f.name))
    requires Defines(s, m.table, Snake(f.name), def)
    ensures def == ColumnOf(f)
  {
    hide Forwards, Marked, ConstraintStatements;
    CreateThenRest(m);
    MarkedOnlyIndexes(m.table, m.fields, Unique);
    MarkedOnlyIndexes(m.table, m.fields, Index);
    ConstraintsAddNoColumn(m.table, m.constraints);
    if s.CreateTable? {
      RestIsAbout(m);
      OwnColumn(m.fields, f, def);
    } else {
      assert s in Forwards(m.table, m.fields);
      ForwardsAreOf(m.table, m.fields, s);
      var g :| g in m.fields && !IsPrimary(g) && s in Forward(m.table, g);
    }
  }

  lemma OwnColumn(fields: seq<Field>, f: Field, def: Column)
    requires ColumnsApart(fields) && f in fields && (Snake(f.name), def) in FieldColumns(fields) + Appended(fields)
    ensures def == ColumnOf(f)
  {
    var own := FieldColumns(fields);
    assert Declares(fields, Snake(f.name));
    AppendedColumns(fields, Snake(f.name));
    assert (Snake(f.name), def) in own;
    var i :| 0 <= i < |own| && own[i] == (Snake(f.name), def);
    assert fields[i] in fields;
  }

  lemma {:induction false} TablesAreOf(models: seq<Model>, s: Statement)
    requires s in Tables(models)
    ensures exists m <- models :: s in ModelStatements(m)
  {
    var front, last := models[..|models| - 1], models[|models| - 1];
    if s in Tables(front) {
      TablesAreOf(front, s);
      var m :| m in front && s in ModelStatements(m);
      assert m in models;
    } else {
      assert last in models;
    }
  }

  lemma ModelStatementsAreAbout(m: Model, s: Statement)
    requires s in ModelStatements(m)
    ensures About(s, m.table)
  {
    CreateThenRest(m);
    RestIsAbout(m);
  }

  lemma OnlyTablesDefine(models: seq<Model>, s: Statement, table: string, column: string, def: Column)
    requires s in Generated(models) && Defines(s, table, column, def)
    ensures s in Tables(models)
  {
    hide Tables, AllReferences, AllChecks;
    Constraining(models);
    assert s in Tables(models) || s in AllReferences(models, models) + AllChecks(models);
  }

  // A field's column, where it is new, is exactly the field's.
  lemma NewColumnIsTheFields(fits: Data, cat: Catalogue, models: seq<Model>, i: nat, f: Field)
    requires Apart(models) && i < |models| && Run(fits, cat, Generated(models)).Some?
    requires f in models[i].fields && !IsPrimary(f) && ColumnsApart(models[i].fields) && !Platform(Snake(f.name))
    requires !HasColumn(cat, models[i].table, Snake(f.name))
    ensures var after := Run(fits, cat, Generated(models)).value; var table, column := models[i].table, Snake(f.name);
            HasColumn(after, table, column) && after.tables[table].columns[column] == ColumnOf(f)
  {
    hide Run, Generated, ColumnOf, ModelStatements, Tables, About;
    var stmts, m, column := Generated(models), models[i], Snake(f.name);
    DeclaredColumnsArePresent(fits, cat, models, i);
    RunDefines(fits, cat, stmts, m.table, column);
    var def := Run(fits, cat, stmts).value.tables[m.table].columns[column];
    var s :| s in stmts && Defines(s, m.table, column, def);
    DefinedAsTheField(models, i, f, s, def);
  }

  lemma DefinedAsTheField(models: seq<Model>, i: nat, f: Field, s: Statement, def: Column)
    requires Apart(models) && i < |models| && s in Generated(models) && Defines(s, models[i].table, Snake(f.name), def)
    requires f in models[i].fields && !IsPrimary(f) && ColumnsApart(models[i].fields) && !Platform(Snake(f.name))
    ensures def == ColumnOf(f)
  {
    hide Generated, ColumnOf, ModelStatements, Tables, About, Snake;
    OnlyTablesDefine(models, s, models[i].table, Snake(f.name), def);
    TablesAreOf(models, s);
    var owner :| owner in models && s in ModelStatements(owner);
    ModelStatementsAreAbout(owner, s);
    SameTableSameModel(models, owner, i, s, Snake(f.name), def);
    ModelDefines(models[i], s, f, def);
  }

  lemma SameTableSameModel(models: seq<Model>, owner: Model, i: nat, s: Statement, column: string, def: Column)
    requires Apart(models) && owner in models && i < |models| && About(s, owner.table) && Defines(s, models[i].table, column, def)
    ensures owner == models[i]
  {
    var j :| 0 <= j < |models| && models[j] == owner;
  }

  // A table with rows cannot be given a required field that has no default: the run stops there.
  lemma RequiredNeedsEmptyTable(fits: Data, cat: Catalogue, models: seq<Model>, i: nat, f: Field)
    requires Apart(models) && i < |models| && models[i].table in cat.tables && cat.tables[models[i].table].populated
    requires f in models[i].fields && !IsPrimary(f) && ColumnsApart(models[i].fields) && !Platform(Snake(f.name))
    requires !f.optional && ColumnOf(f).fallback == None && !HasColumn(cat, models[i].table, Snake(f.name))
    ensures Run(fits, cat, Generated(models)) == None
  {
    hide Run, Generated, Snake, DefaultOf, SqlType;
    if Run(fits, cat, Generated(models)).Some? {
      forall s <- Generated(models), def | Defines(s, models[i].table, Snake(f.name), def) ensures def.notNull && def.fallback == None {
        DefinedAsTheField(models, i, f, s, def);
      }
      StaysWithout(fits, cat, Generated(models), models[i].table, Snake(f.name));
      DeclaredColumnsArePresent(fits, cat, models, i);
    }
  }

  lemma {:induction false} StaysWithout(fits: Data, cat: Catalogue, stmts: seq<Statement>, table: string, column: string)
    requires table in cat.tables && cat.tables[table].populated && !HasColumn(cat, table, column) && Run(fits, cat, stmts).Some?
    requires forall s <- stmts, def | Defines(s, table, column, def) :: def.notNull && def.fallback == None
    ensures !HasColumn(Run(fits, cat, stmts).value, table, column)
    decreases |stmts|
  {
    if stmts != [] {
      assert stmts[0] in stmts && forall s <- stmts[1..] :: s in stmts;
      StepWithout(fits, cat, stmts[0], table, column);
      hide Exec, Defines;
      StaysWithout(fits, Exec(fits, cat, stmts[0]).value, stmts[1..], table, column);
    }
  }

  lemma StepWithout(fits: Data, cat: Catalogue, s: Statement, table: string, column: string)
    requires table in cat.tables && cat.tables[table].populated && !HasColumn(cat, table, column) && Exec(fits, cat, s).Some?
    requires forall def | Defines(s, table, column, def) :: def.notNull && def.fallback == None
    ensures var next := Exec(fits, cat, s).value;
            table in next.tables && next.tables[table].populated && !HasColumn(next, table, column)
  {
    if s.AddColumn? && s.table == table && s.name == column { assert Defines(s, table, column, s.column); }
  }

  // --- The columns nobody declares ---

  // Of a new table: when a row was made and last changed, known and never null; when it was deleted and whose it
  // is, unknown unless given.
  lemma NewTableHasPlatformColumns(fits: Data, cat: Catalogue, models: seq<Model>, i: nat, column: string)
    requires Apart(models) && i < |models| && Run(fits, cat, Generated(models)).Some? && models[i].table !in cat.tables
    requires !Declares(models[i].fields, column)
    requires column == "created_at" || column == "updated_at" || column == "deleted_at" || column == "tenant_id"
    ensures var after := Run(fits, cat, Generated(models)).value; var table := models[i].table;
            HasColumn(after, table, column) &&
            after.tables[table].columns[column] ==
              if column == "created_at" || column == "updated_at" then Column("TIMESTAMPTZ", Some("NOW()"), true, false)
              else if column == "deleted_at" then Column("TIMESTAMPTZ", None, false, false) else Column("TEXT", None, false, false)
  {
    hide Run, Generated, ModelStatements, Tables, About;
    var stmts, m := Generated(models), models[i];
    FinalColumns(fits, cat, models, i, column);
    RunDefines(fits, cat, stmts, m.table, column);
    var def := Run(fits, cat, stmts).value.tables[m.table].columns[column];
    var s :| s in stmts && Defines(s, m.table, column, def);
    OnlyTablesDefine(models, s, m.table, column, def);
    TablesAreOf(models, s);
    var owner :| owner in models && s in ModelStatements(owner);
    ModelStatementsAreAbout(owner, s);
    SameTableSameModel(models, owner, i, s, column, def);
    PlatformDefined(m, s, column, def);
  }

  lemma PlatformDefined(m: Model, s: Statement, column: string, def: Column)
    requires s in ModelStatements(m) && !Declares(m.fields, column) && Defines(s, m.table, column, def)
    requires column == "created_at" || column == "updated_at" || column == "deleted_at" || column == "tenant_id"
    ensures def == if column == "created_at" || column == "updated_at" then Column("TIMESTAMPTZ", Some("NOW()"), true, false)
                   else if column == "deleted_at" then Column("TIMESTAMPTZ", None, false, false) else Column("TEXT", None, false, false)
  {
    hide Forwards, Marked, ConstraintStatements;
    CreateThenRest(m);
    MarkedOnlyIndexes(m.table, m.fields, Unique);
    MarkedOnlyIndexes(m.table, m.fields, Index);
    ConstraintsAddNoColumn(m.table, m.constraints);
    ForwardsOnlyAdd(m.table, m.fields);
    if s.CreateTable? {
      RestIsAbout(m);
      NotOwnColumn(m.fields, column, def);
    } else {
      assert s in Forwards(m.table, m.fields) ==> DeclaresPlain(m.fields, column);
    }
  }

  lemma NotOwnColumn(fields: seq<Field>, column: string, def: Column)
    requires !Declares(fields, column) && (column, def) in FieldColumns(fields) + Appended(fields)
    ensures (column, def) in Appended(fields)
  {
    var own := FieldColumns(fields);
    forall i | 0 <= i < |own| ensures own[i].0 != column {
      assert fields[i] in fields;
    }
  }

  // The primary column of a new table: text, never null, generated when not given.
  lemma NewTableHasItsKey(fits: Data, cat: Catalogue, models: seq<Model>, i: nat, f: Field)
    requires Apart(models) && i < |models| && Run(fits, cat, Generated(models)).Some? && models[i].table !in cat.tables
    requires f in models[i].fields && ColumnsApart(models[i].fields) && !Platform(Snake(f.name))
    requires f.name == "id" || Primary in f.attributes
    ensures var after := Run(fits, cat, Generated(models)).value; var table := models[i].table;
            HasColumn(after, table, Snake(f.name)) &&
            after.tables[table].columns[Snake(f.name)] == Column("TEXT", Some("gen_random_uuid()::text"), true, true)
  {
    hide Run, Generated, ModelStatements, Tables, About, Snake;
    var stmts, m, column := Generated(models), models[i], Snake(f.name);
    assert Declares(m.fields, column);
    FinalColumns(fits, cat, models, i, column);
    RunDefines(fits, cat, stmts, m.table, column);
    var def := Run(fits, cat, stmts).value.tables[m.table].columns[column];
    var s :| s in stmts && Defines(s, m.table, column, def);
    OnlyTablesDefine(models, s, m.table, column, def);
    TablesAreOf(models, s);
    var owner :| owner in models && s in ModelStatements(owner);
    ModelStatementsAreAbout(owner, s);
    SameTableSameModel(models, owner, i, s, column, def);
    KeyDefined(m, s, f, def);
  }

  lemma KeyDefined(m: Model, s: Statement, f: Field, def: Column)
    requires s in ModelStatements(m) && ColumnsApart(m.fields) && f in m.fields && IsPrimary(f) && !Platform(Snake(f.name))
    requires Defines(s, m.table, Snake(f.name), def)
    ensures def == ColumnOf(f)
  {
    hide Forwards, Marked, ConstraintStatements;
    CreateThenRest(m);
    MarkedOnlyIndexes(m.table, m.fields, Unique);
    MarkedOnlyIndexes(m.table, m.fields, Index);
    ConstraintsAddNoColumn(m.table, m.constraints);
    ForwardsOnlyAdd(m.table, m.fields);
    if s.CreateTable? {
      RestIsAbout(m);
      OwnColumn(m.fields, f, def);
    }
  }

  // --- Defaults ---

  // Reading a quoted SQL string back: doubled quotes are one, a single one ends it.
  function Unquoted(text: string): Option<string> {
    if text == [] then Some([])
    else if text[0] != '\'' then (var rest := Unquoted(text[1..]); if rest.Some? then Some([text[0]] + rest.value) else None)
    else if |text| >= 2 && text[1] == '\'' then (var rest := Unquoted(text[2..]); if rest.Some? then Some(['\''] + rest.value) else None)
    else None
  }

  // No default ends its own literal early: what is read back is what was declared.
  lemma {:induction false} QuotedReadsBack(value: string)
    ensures Unquoted(Quoted(value)) == Some(value)
  {
    if value != [] {
      QuotedReadsBack(value[1..]);
      var rest := Quoted(value[1..]);
      if value[0] == '\'' {
        assert Quoted(value)[2..] == rest;
      } else {
        assert Quoted(value)[1..] == rest;
      }
      assert value == [value[0]] + value[1..];
    }
  }

  predicate IsString(literal: string, value: string) {
    |literal| >= 2 && literal[0] == '\'' == literal[|literal| - 1] && Unquoted(literal[1..|literal| - 1]) == Some(value)
  }

  lemma {:induction false} FirstDefaultWins(attributes: seq<Attribute>, k: nat)
    requires k < |attributes| && attributes[k].Default? && forall j :: 0 <= j < k ==> !attributes[j].Default?
    ensures DeclaredDefault(attributes) == Some(attributes[k].value)
  {
    if k > 0 { FirstDefaultWins(attributes[1..], k - 1); }
  }

  lemma {:induction false} NoDefaultDeclared(attributes: seq<Attribute>)
    requires forall a <- attributes :: !a.Default?
    ensures DeclaredDefault(attributes) == None
  {
    if attributes != [] { NoDefaultDeclared(attributes[1..]); }
  }

  // What a new column takes when nothing is given: what the field declares first, as a number, a boolean or a
  // string; else the time for a creation or update timestamp, and an empty list for lists.
  lemma ColumnDefault(f: Field, k: nat)
    requires !IsPrimary(f)
    ensures var d := ColumnOf(f).fallback;
            k < |f.attributes| && f.attributes[k].Default? && (forall j :: 0 <= j < k ==> !f.attributes[j].Default?) ==>
              d.Some? && if f.fieldType.Number? || f.fieldType.Boolean? then d.value == f.attributes[k].value else IsString(d.value, f.attributes[k].value)
    ensures (forall a <- f.attributes :: !a.Default?) ==>
              ColumnOf(f).fallback ==
                if (Snake(f.name) == "created_at" || Snake(f.name) == "updated_at") && f.fieldType == DateTime then Some("NOW()")
                else if f.fieldType == Array || f.fieldType == Blocks then Some("'[]'::jsonb") else None
  {
    if k < |f.attributes| && f.attributes[k].Default? && forall j :: 0 <= j < k ==> !f.attributes[j].Default? {
      FirstDefaultWins(f.attributes, k);
      var value := f.attributes[k].value;
      QuotedReadsBack(value);
      var literal := "'" + Quoted(value) + "'";
      assert literal[1..|literal| - 1] == Quoted(value);
    }
    if forall a <- f.attributes :: !a.Default? { NoDefaultDeclared(f.attributes); }
  }

  // The SQL type a kind of field is kept in.
  lemma ColumnType(f: Field)
    requires !IsPrimary(f)
    ensures var t, k := ColumnOf(f).sqlType, f.fieldType;
            (k == Text || k == File || k == EntityId || k == Reference ==> t == "TEXT") &&
            (k == Number ==> t == "BIGINT") && (k == Boolean ==> t == "BOOLEAN") && (k == Date ==> t == "DATE") &&
            (k == DateTime ==> t == "TIMESTAMPTZ") && (k == Json || k == Array || k == Blocks || k == CustomType ==> t == "JSONB")
    ensures ColumnOf(f).notNull == !f.optional && !ColumnOf(f).primary
  {
  }

  // --- Names ---

  function Upper(c: char): char { if 'a' <= c <= 'z' then (c as int - 32) as char else c }

  // Reading a column name back: an underscore makes the letter after it a capital.
  function Camel(column: string): string {
    if |column| >= 2 && column[|column| - 2] == '_' then Camel(column[..|column| - 2]) + [Upper(column[|column| - 1])]
    else if column == [] then []
    else Camel(column[..|column| - 1]) + [column[|column| - 1]]
  }

  lemma SnakeOneMore(name: string, c: char)
    ensures Snake(name + [c]) == Snake(name) + (if 'A' <= c <= 'Z' && Snake(name) != [] then ['_'] else []) + [Lower(c)]
  {
    assert (name + [c])[..|name|] == name;
  }

  lemma {:induction false} SnakeKeeps(name: string)
    ensures (Snake(name) == [] <==> name == []) && forall c <- Snake(name) :: !('A' <= c <= 'Z')
    ensures '_' !in name && name != [] ==> Snake(name)[|Snake(name)| - 1] != '_'
  {
    if name != [] {
      var front, c := name[..|name| - 1], name[|name| - 1];
      SnakeKeeps(front);
      assert name == front + [c];
    }
  }

  predicate Capital(c: char) { 'A' <= c <= 'Z' }

  lemma LoweredReadsBack(c: char)
    requires Capital(c)
    ensures Upper(Lower(c)) == c
  {
  }

  lemma CamelCapital(column: string, c: char)
    ensures Camel(column + ['_', c]) == Camel(column) + [Upper(c)]
  {
    assert (column + ['_', c])[..|column|] == column;
  }

  lemma CamelPlain(column: string, c: char)
    requires column == [] || column[|column| - 1] != '_'
    ensures Camel(column + [c]) == Camel(column) + [c]
  {
    assert (column + [c])[..|column|] == column;
  }

  // A camelCase name is read back from its column: different fields have different columns.
  lemma {:induction false} ColumnNamesReadBack(name: string)
    requires '_' !in name && (name != [] ==> !Capital(name[0]))
    ensures Camel(Snake(name)) == name
  {
    hide Snake, Camel, Upper, Lower;
    SnakeKeeps(name);
    if name == [] {
      NothingReadsBack();
    } else {
      var front, c := name[..|name| - 1], name[|name| - 1];
      assert name == front + [c] && (front != [] ==> front[0] == name[0] && front[|front| - 1] in name);
      SnakeOneMore(front, c);
      SnakeKeeps(front);
      ColumnNamesReadBack(front);
      if Capital(c) {
        assert Snake(name) == Snake(front) + ['_', Lower(c)];
        CamelCapital(Snake(front), Lower(c));
        LoweredReadsBack(c);
      } else {
        PlainStays(c);
        assert Snake(name) == Snake(front) + [c];
        CamelPlain(Snake(front), c);
      }
    }
  }

  lemma NothingReadsBack()
    ensures Camel(Snake([])) == []
  {
  }

  lemma PlainStays(c: char)
    requires !Capital(c)
    ensures Lower(c) == c
  {
  }

  // --- Indexes and references ---

  lemma InModel(models: seq<Model>, m: Model, s: Statement)
    requires m in models && s in ModelStatements(m)
    ensures s in Generated(models)
  {
    StatementsAreGenerated(models, m, s);
  }

  // A unique field gets a unique index on exactly its column, an indexed one a plain index.
  lemma FieldIndexes(fits: Data, cat: Catalogue, models: seq<Model>, m: Model, f: Field)
    requires m in models && f in m.fields && !IsPrimary(f) && Run(fits, cat, Generated(models)).Some?
    ensures var after := Run(fits, cat, Generated(models)).value; var name := "uq_" + m.table + "_" + Snake(f.name);
            Unique in f.attributes && name !in cat.indexes && NamesOneIndex(models, name) ==>
              name in after.indexes && after.indexes[name] == IndexDef(m.table, [Snake(f.name)], true, None)
    ensures var after := Run(fits, cat, Generated(models)).value; var name := "idx_" + m.table + "_" + Snake(f.name);
            Index in f.attributes && name !in cat.indexes && NamesOneIndex(models, name) ==>
              name in after.indexes && after.indexes[name] == IndexDef(m.table, [Snake(f.name)], false, None)
  {
    hide Run, Generated, Snake, NamesOneIndex, Marked, Forwards, ConstraintStatements;
    if Unique in f.attributes {
      MarkedHas(m.table, m.fields, f, Unique);
      var s := MarkIndex(m.table, Snake(f.name), Unique);
      InModel(models, m, s);
      if s.index !in cat.indexes && NamesOneIndex(models, s.index) { IndexTakesEffect(fits, cat, models, s); }
    }
    if Index in f.attributes {
      MarkedHas(m.table, m.fields, f, Index);
      var s := MarkIndex(m.table, Snake(f.name), Index);
      InModel(models, m, s);
      if s.index !in cat.indexes && NamesOneIndex(models, s.index) { IndexTakesEffect(fits, cat, models, s); }
    }
  }

  // What a model constraint asks of the catalogue, and under which name: that of the table and the columns, or
  // for a check the place of the constraint in the model.
  ghost predicate Meets(cat: Catalogue, table: string, n: nat, c: Constraint) {
    match c
    case UniqueOn(columns) => Indexed(cat, "uq_" + table + "_" + Joined(SnakeAll(columns)), IndexDef(table, SnakeAll(columns), true, None))
    case IndexOn(columns) => Indexed(cat, "idx_" + table + "_" + Joined(SnakeAll(columns)), IndexDef(table, SnakeAll(columns), false, None))
    case UniqueWhere(columns, p) => Indexed(cat, "uq_" + table + "_" + Joined(SnakeAll(columns)), IndexDef(table, SnakeAll(columns), true, Some(p)))
    case IndexWhere(columns, p) => Indexed(cat, "idx_" + table + "_" + Joined(SnakeAll(columns)), IndexDef(table, SnakeAll(columns), false, Some(p)))
    case CheckThat(sql) =>
      var name := "chk_" + table + "_" + Digits(n);
      name in cat.constraints && cat.constraints[name] == (table, Check(None, Raw(sql), false))
  }

  ghost predicate Indexed(cat: Catalogue, name: string, def: IndexDef) { name in cat.indexes && cat.indexes[name] == def }

  // The name is neither taken nor given to anything else.
  ghost predicate NameIsFree(cat: Catalogue, models: seq<Model>, table: string, n: nat, c: Constraint) {
    match c
    case CheckThat(_) =>
      var name := "chk_" + table + "_" + Digits(n);
      name !in cat.constraints && NamesOneConstraint(models, name)
    case _ =>
      var name := (if c.UniqueOn? || c.UniqueWhere? then "uq_" else "idx_") + table + "_" + Joined(SnakeAll(c.columns));
      name !in cat.indexes && NamesOneIndex(models, name)
  }

  lemma ConstraintsAreMet(fits: Data, cat: Catalogue, models: seq<Model>, m: Model, n: nat)
    requires m in models && n < |m.constraints| && Run(fits, cat, Generated(models)).Some?
    requires NameIsFree(cat, models, m.table, n, m.constraints[n])
    ensures Meets(Run(fits, cat, Generated(models)).value, m.table, n, m.constraints[n])
  {
    hide Run, Generated, NamesOneIndex, NamesOneConstraint, Marked, Forwards, ConstraintStatements, Joined, Digits, SnakeAll;
    var s := ConstraintStatement(m.table, n, m.constraints[n]);
    ConstraintHas(m.table, m.constraints, n);
    InModel(models, m, s);
    if s.CreateIndex? { IndexTakesEffect(fits, cat, models, s); } else { ConstraintTakesEffect(fits, cat, models, s); }
  }

  // The columns in a name are joined by underscores, and the place in one is its decimal numeral.
  lemma {:induction false} JoinedOneMore(parts: seq<string>, last: string)
    ensures Joined(parts + [last]) == if parts == [] then last else Joined(parts) + "_" + last
  {
    if parts == [] {
      assert parts + [last] == [last];
    } else {
      assert (parts + [last])[1..] == parts[1..] + [last];
      JoinedOneMore(parts[1..], last);
    }
  }

  function ReadNumber(numeral: string): int {
    if numeral == [] then 0 else 10 * ReadNumber(numeral[..|numeral| - 1]) + (numeral[|numeral| - 1] as int - '0' as int)
  }

  lemma {:induction false} DigitsReadBack(n: nat)
    ensures ReadNumber(Digits(n)) == n && Digits(n) != [] && forall c <- Digits(n) :: '0' <= c <= '9'
    ensures |Digits(n)| > 1 ==> Digits(n)[0] != '0'
  {
    var last := ("0123456789")[n % 10];
    assert last as int - '0' as int == n % 10;
    if n >= 10 {
      DigitsReadBack(n / 10);
      assert Digits(n)[..|Digits(n)| - 1] == Digits(n / 10);
      if |Digits(n / 10)| == 1 { assert ReadNumber(Digits(n / 10)[..0]) == 0; }
    } else {
      assert Digits(n) == [last] && [last][..0] == [];
    }
  }

  lemma {:induction false} ReferenceIsGenerated(all: seq<Model>, models: seq<Model>, m: Model, s: Statement, r: Relationship)
    requires m in models && r in m.relationships && s in ReferenceStatements(all, m, r)
    ensures s in AllReferences(all, models)
  {
    var front, last := models[..|models| - 1], models[|models| - 1];
    if m in front {
      ReferenceIsGenerated(all, front, m, s, r);
    } else {
      RelationshipIsListed(all, m, m.relationships, s, r);
    }
  }

  lemma {:induction false} RelationshipIsListed(all: seq<Model>, m: Model, rs: seq<Relationship>, s: Statement, r: Relationship)
    requires r in rs && s in ReferenceStatements(all, m, r)
    ensures s in References(all, m, rs)
  {
    var front, last := rs[..|rs| - 1], rs[|rs| - 1];
    if r in front { RelationshipIsListed(all, m, front, s, r); } else { assert r == last; }
  }

  lemma {:induction false} TableOfNamed(models: seq<Model>, target: Model)
    requires target in models && forall m <- models :: m.name == target.name ==> m.table == target.table
    ensures TableOf(models, target.name) == Some(target.table)
  {
    var front, last := models[..|models| - 1], models[|models| - 1];
    if last.name != target.name {
      assert target in front && forall m <- front :: m in models;
      TableOfNamed(front, target);
    } else {
      assert last in models;
    }
  }

  // A model that belongs to another, by a column it declares, ends up with a foreign key on exactly that column
  // to exactly the other's table.
  lemma BelongingIsEnforced(fits: Data, cat: Catalogue, models: seq<Model>, m: Model, r: Relationship, target: Model)
    requires m in models && target in models && r in m.relationships && r.kind == "belongsTo" && r.model == target.name
    requires (forall t <- models :: t.name == target.name ==> t.table == target.table) && Run(fits, cat, Generated(models)).Some?
    requires var column := Snake(if r.foreignKey.Some? then r.foreignKey.value else r.name + "Id");
             var name := "fk_" + m.table + "_" + column;
             Declares(m.fields, column) && name !in cat.constraints && NamesOneConstraint(models, name)
    ensures var column := Snake(if r.foreignKey.Some? then r.foreignKey.value else r.name + "Id");
            var name := "fk_" + m.table + "_" + column; var after := Run(fits, cat, Generated(models)).value;
            name in after.constraints && after.constraints[name] == (m.table, ForeignKey(column, target.table))
  {
    hide Run, NamesOneConstraint, Declares, Snake, Tables, AllReferences, AllChecks;
    TableOfNamed(models, target);
    var s := AddConstraint("fk_" + m.table + "_" + KeyColumn(r), m.table, ForeignKey(KeyColumn(r), target.table));
    assert s in ReferenceStatements(models, m, r);
    ReferenceIsGenerated(models, models, m, s, r);
    assert s in Generated(models);
    ConstraintTakesEffect(fits, cat, models, s);
  }

  // --- Checks on values ---

  // A value of a column, as far as the checks look at it.
  datatype Cell = Null | Num(n: int) | Str(text: string)

  // One '@', something before it, and after it a dot with something on either side.
  ghost predicate LooksLikeEmail(s: string) {
    exists i, j :: 0 < i && i + 1 < j < |s| - 1 && s[i] == '@' && s[j] == '.' && forall k :: 0 <= k < |s| && s[k] == '@' ==> k == i
  }

  // What a test says of a value that is there; null, it says nothing.
  ghost predicate Holds(test: Test, cell: Cell)
    requires !cell.Null?
  {
    match test
    case Email => cell.Str? && LooksLikeEmail(cell.text)
    case Url => cell.Str? && ("http://" <= cell.text || "https://" <= cell.text)
    case AtLeast(n, length) => if length then cell.Str? && |cell.text| >= n else cell.Num? && cell.n >= n
    case AtMost(n, length) => if length then cell.Str? && |cell.text| <= n else cell.Num? && cell.n <= n
    case Raw(_) => true
  }

  // A check refuses only what its test denies; a null is the column's affair.
  ghost predicate Admits(column: Column, check: ConstraintDef, cell: Cell)
    requires check.Check?
  {
    if cell.Null? then !column.notNull else Holds(check.test, cell)
  }

  predicate Typed(f: Field, cell: Cell) { cell.Null? || (if f.fieldType.Number? then cell.Num? else cell.Str?) }

  // What a rule asks of a field's value, in the words of the rule.
  ghost predicate Asks(f: Field, rule: Rule, cell: Cell)
    requires Typed(f, cell)
  {
    if cell.Null? then f.optional
    else if rule.name == "min" && rule.number.Some? then rule.number.value <= (if f.fieldType.Number? then cell.n else |cell.text|)
    else if rule.name == "max" && rule.number.Some? then (if f.fieldType.Number? then cell.n else |cell.text|) <= rule.number.value
    else if rule.name == "email" then cell.Str? && LooksLikeEmail(cell.text)
    else if rule.name == "url" then cell.Str? && (cell.text[..if |cell.text| < 7 then |cell.text| else 7] == "http://" ||
                                                  cell.text[..if |cell.text| < 8 then |cell.text| else 8] == "https://")
    else true
  }

  predicate Checked(rule: Rule) {
    rule.name in ["email", "url"] || (rule.name in ["min", "max"] && rule.number.Some?)
  }

  lemma {:induction false} RuleIsCompiled(table: string, f: Field, rules: seq<Rule>, rule: Rule)
    requires rule in rules && TestOf(f, rule).Some?
    ensures AddConstraint("chk_" + table + "_" + Snake(f.name) + "_" + rule.name, table, Check(Some(Snake(f.name)), TestOf(f, rule).value, f.optional))
              in RuleChecks(table, f, rules)
  {
    var front, last := rules[..|rules| - 1], rules[|rules| - 1];
    if rule in front { RuleIsCompiled(table, f, front, rule); } else { assert rule == last; }
  }

  lemma {:induction false} EntryIsCompiled(m: Model, validation: seq<(string, seq<Rule>)>, name: string, rules: seq<Rule>, s: Statement)
    requires (name, rules) in validation && FieldNamed(m.fields, name).Some? && s in RuleChecks(m.table, FieldNamed(m.fields, name).value, rules)
    ensures s in ModelChecks(m, validation)
  {
    var front, last := validation[..|validation| - 1], validation[|validation| - 1];
    if (name, rules) in front { EntryIsCompiled(m, front, name, rules, s); } else { assert last == (name, rules); }
  }

  lemma {:induction false} CheckIsGenerated(models: seq<Model>, m: Model, s: Statement)
    requires m in models && s in ModelChecks(m, m.validation)
    ensures s in AllChecks(models)
  {
    var front, last := models[..|models| - 1], models[|models| - 1];
    if m in front { CheckIsGenerated(front, m, s); } else { assert m == last; }
  }

  lemma {:induction false} FieldNamedFinds(fields: seq<Field>, f: Field)
    requires f in fields && forall g <- fields :: g.name == f.name ==> g == f
    ensures FieldNamed(fields, f.name) == Some(f)
  {
    var front, last := fields[..|fields| - 1], fields[|fields| - 1];
    if last.name != f.name {
      assert f in front && forall g <- front :: g in fields;
      FieldNamedFinds(front, f);
    } else {
      assert last in fields;
    }
  }

  lemma CompiledAsAsked(f: Field, rule: Rule, cell: Cell)
    requires Checked(rule) && Typed(f, cell) && !cell.Null?
    ensures TestOf(f, rule).Some? && (Holds(TestOf(f, rule).value, cell) <==> Asks(f, rule, cell))
  {
    if rule.name == "url" && cell.Str? {
      PrefixIs(cell.text, "http://");
      PrefixIs(cell.text, "https://");
    }
  }

  lemma PrefixIs(text: string, prefix: string)
    ensures prefix <= text <==> text[..if |text| < |prefix| then |text| else |prefix|] == prefix
  {
  }

  // After a successful run, the check a field's rule leaves, with the field's new column, lets in exactly the
  // values the rule asks for, and null exactly if the field is optional.
  lemma ValidationTakesEffect(fits: Data, cat: Catalogue, models: seq<Model>, i: nat, f: Field, rules: seq<Rule>, rule: Rule)
    requires Apart(models) && i < |models| && Run(fits, cat, Generated(models)).Some?
    requires f in models[i].fields && !IsPrimary(f) && ColumnsApart(models[i].fields) && !Platform(Snake(f.name))
    requires (f.name, rules) in models[i].validation && rule in rules && Checked(rule)
    requires !HasColumn(cat, models[i].table, Snake(f.name))
    requires var name := "chk_" + models[i].table + "_" + Snake(f.name) + "_" + rule.name;
             name !in cat.constraints && NamesOneConstraint(models, name)
    ensures var name := "chk_" + models[i].table + "_" + Snake(f.name) + "_" + rule.name;
            var after := Run(fits, cat, Generated(models)).value;
            name in after.constraints && after.constraints[name].0 == models[i].table &&
            HasColumn(after, models[i].table, Snake(f.name)) &&
            var check, column := after.constraints[name].1, after.tables[models[i].table].columns[Snake(f.name)];
            check.Check? && check.over == Some(Snake(f.name)) && check.nullPasses == f.optional &&
            forall cell :: Typed(f, cell) ==> (Admits(column, check, cell) <==> Asks(f, rule, cell))
  {
    hide Run, Generated, Snake, NamesOneConstraint, Holds, Asks, TestOf, Checked;
    var m := models[i];
    RuleCompiles(models, m, f, rules, rule);
    var s := AddConstraint("chk_" + m.table + "_" + Snake(f.name) + "_" + rule.name, m.table, Check(Some(Snake(f.name)), TestOf(f, rule).value, f.optional));
    ConstraintTakesEffect(fits, cat, models, s);
    NewColumnIsTheFields(fits, cat, models, i, f);
    ColumnType(f);
    forall cell: Cell | Typed(f, cell) && !cell.Null? ensures Holds(s.rule.test, cell) <==> Asks(f, rule, cell) {
      CompiledAsAsked(f, rule, cell);
    }
    NullIsAsked(f, rule);
  }

  lemma NullIsAsked(f: Field, rule: Rule)
    ensures Asks(f, rule, Null) <==> f.optional
  {
  }

  lemma RuleCompiles(models: seq<Model>, m: Model, f: Field, rules: seq<Rule>, rule: Rule)
    requires m in models && f in m.fields && ColumnsApart(m.fields) && (f.name, rules) in m.validation && rule in rules && Checked(rule)
    ensures TestOf(f, rule).Some? &&
            AddConstraint("chk_" + m.table + "_" + Snake(f.name) + "_" + rule.name, m.table, Check(Some(Snake(f.name)), TestOf(f, rule).value, f.optional))
              in Generated(models)
  {
    hide Snake, RuleChecks, ModelChecks, Tables, AllReferences, AllChecks;
    assert forall g <- m.fields :: g.name == f.name ==> Snake(g.name) == Snake(f.name);
    FieldNamedFinds(m.fields, f);
    assert TestOf(f, rule).Some?;
    RuleIsCompiled(m.table, f, rules, rule);
    var s := AddConstraint("chk_" + m.table + "_" + Snake(f.name) + "_" + rule.name, m.table, Check(Some(Snake(f.name)), TestOf(f, rule).value, f.optional));
    EntryIsCompiled(m, m.validation, f.name, rules, s);
    CheckIsGenerated(models, m, s);
  }

  // Rules of other names, and bounds without a number, leave no check.
  lemma {:induction false} OtherRulesCheckNothing(table: string, f: Field, rules: seq<Rule>)
    requires forall rule <- rules :: !Checked(rule)
    ensures RuleChecks(table, f, rules) == []
  {
    if rules != [] {
      var front, last := rules[..|rules| - 1], rules[|rules| - 1];
      assert last in rules && forall rule <- front :: rule in rules;
      OtherRulesCheckNothing(table, f, front);
    }
  }
}
