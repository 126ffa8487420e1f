// The migration generator as a compiler from schemas to statements, and what running the statements
// does to a database's catalogue.
module Migrations {
  import opened Wrappers

  // --- Schemas ---

  datatype FieldType = Text | File | Number | Boolean | Date | DateTime | EntityId | Json | Reference | Array | Blocks | CustomType

  datatype Attribute = Primary | Unique | Index | Default(value: string) | Other

  datatype Field = Field(name: string, fieldType: FieldType, optional: bool, attributes: seq<Attribute>)

  datatype Constraint =
    | UniqueOn(columns: seq<string>)
    | IndexOn(columns: seq<string>)
    | UniqueWhere(columns: seq<string>, condition: string)
    | IndexWhere(columns: seq<string>, condition: string)
    | CheckThat(sql: string)

  datatype Relationship = Relationship(name: string, kind: string, model: string, foreignKey: Option<string>)

  // One validation rule: its name, and its parameter if that is a number.
  datatype Rule = Rule(name: string, number: Option<int>)

  datatype Model = Model(name: string, table: string, fields: seq<Field>, constraints: seq<Constraint>,
                         relationships: seq<Relationship>, validation: seq<(string, seq<Rule>)>)

  // --- Catalogues and statements ---

  datatype Column = Column(sqlType: string, fallback: Option<string>, notNull: bool, primary: bool)

  datatype Table = Table(columns: map<string, Column>, populated: bool)

  datatype IndexDef = IndexDef(table: string, columns: seq<string>, unique: bool, condition: Option<string>)

  datatype Test = Raw(sql: string) | Email | Url | AtLeast(n: int, length: bool) | AtMost(n: int, length: bool)

  datatype ConstraintDef =
    | Check(over: Option<string>, test: Test, nullPasses: bool)
    | ForeignKey(column: string, target: string)

  datatype Catalogue = Catalogue(tables: map<string, Table>, indexes: map<string, IndexDef>, constraints: map<string, (string, ConstraintDef)>)

  datatype Statement =
    | CreateTable(table: string, columns: seq<(string, Column)>)
    | AddColumn(table: string, name: string, column: Column)
    | AddRequired(table: string, name: string, sqlType: string)
    | CreateIndex(index: string, def: IndexDef)
    | AddConstraint(constraint: string, table: string, rule: ConstraintDef)

  function ColumnMap(columns: seq<(string, Column)>): map<string, Column> {
    if columns == [] then map[] else ColumnMap(columns[..|columns| - 1])[columns[|columns| - 1].0 := columns[|columns| - 1].1]
  }

  ghost predicate WellFormed(columns: seq<(string, Column)>) {
    forall i, j :: 0 <= i < j < |columns| ==> columns[i].0 != columns[j].0 && !(columns[i].1.primary && columns[j].1.primary)
  }

  predicate HasColumn(cat: Catalogue, table: string, column: string) {
    table in cat.tables && column in cat.tables[table].columns
  }

  // Everything a constraint names is there.
  predicate Resolves(cat: Catalogue, table: string, def: ConstraintDef) {
    match def
    case Check(column, _, _) => table in cat.tables && (column.Some? ==> HasColumn(cat, table, column.value))
    case ForeignKey(column, target) => HasColumn(cat, table, column) && HasColumn(cat, target, "id")
  }

  // The rows in the tables may violate a new index or constraint; that is not the generator's doing.
  type Data = string -> bool

  // A statement whose name or column is already there does nothing; otherwise it adds, or fails.
  ghost function Exec(fits: Data, cat: Catalogue, s: Statement): Option<Catalogue> {
    match s
    case CreateTable(table, columns) =>
      if table in cat.tables then Some(cat)
      else if WellFormed(columns) then Some(cat.(tables := cat.tables[table := Table(ColumnMap(columns), false)])) else None
    case AddColumn(table, name, column) =>
      if table !in cat.tables then None
      else if name in cat.tables[table].columns then Some(cat)
      else if column.notNull && column.fallback.None? && cat.tables[table].populated then None
      else Some(WithColumn(cat, table, name, column))
    case AddRequired(table, name, sqlType) =>
      if HasColumn(cat, table, name) then Some(cat)
      else if table !in cat.tables || cat.tables[table].populated then None
      else Some(WithColumn(cat, table, name, Column(sqlType, None, true, false)))
    case CreateIndex(index, def) =>
      if index in cat.indexes then Some(cat)
      else if (forall c <- def.columns :: HasColumn(cat, def.table, c)) && def.table in cat.tables && (def.unique ==> fits(index))
      then Some(cat.(indexes := cat.indexes[index := def])) else None
    case AddConstraint(constraint, table, def) =>
      if constraint in cat.constraints then Some(cat)
      else if Resolves(cat, table, def) && fits(constraint) then Some(cat.(constraints := cat.constraints[constraint := (table, def)])) else None
  }

  function WithColumn(cat: Catalogue, table: string, name: string, column: Column): Catalogue
    requires table in cat.tables
  {
    cat.(tables := cat.tables[table := cat.tables[table].(columns := cat.tables[table].columns[name := column])])
  }

  // All statements, in one transaction.
  ghost function Run(fits: Data, cat: Catalogue, stmts: seq<Statement>): Option<Catalogue>
    decreases |stmts|
  {
    if stmts == [] then Some(cat)
    else
      var next := Exec(fits, cat, stmts[0]);
      if next.None? then None else Run(fits, next.value, stmts[1..])
  }

  // --- Names and types ---

  function Lower(c: char): char { if 'A' <= c <= 'Z' then (c as int + 32) as char else c }

  // camelCase to snake_case, for the letters identifiers use.
  function Snake(name: string): string {
    if name == [] then []
    else
      var before, c := Snake(name[..|name| - 1]), name[|name| - 1];
      before + (if 'A' <= c <= 'Z' && before != [] then ['_'] else []) + [Lower(c)]
  }

  function SnakeAll(names: seq<string>): (snakes: seq<string>)
    ensures |snakes| == |names| && forall i :: 0 <= i < |names| ==> snakes[i] == Snake(names[i])
  {
    if names == [] then [] else [Snake(names[0])] + SnakeAll(names[1..])
  }

  function Joined(parts: seq<string>): string {
    if parts == [] then "" else if |parts| == 1 then parts[0] else parts[0] + "_" + Joined(parts[1..])
  }

  function Digits(n: nat): string {
    (if n < 10 then [] else Digits(n / 10)) + [("0123456789")[n % 10]]
  }

  function SqlType(t: FieldType): string {
    match t
    case Text => "TEXT"
    case File => "TEXT"
    case Number => "BIGINT"
    case Boolean => "BOOLEAN"
    case Date => "DATE"
    case DateTime => "TIMESTAMPTZ"
    case EntityId => "TEXT"
    case Json => "JSONB"
    case Reference => "TEXT"
    case Array => "JSONB"
    case Blocks => "JSONB"
    case CustomType => "JSONB"
  }

  function Quoted(value: string): string {
    if value == [] then [] else (if value[0] == '\'' then "''" else [value[0]]) + Quoted(value[1..])
  }

  function Literal(value: string, t: FieldType): string {
    if t.Number? || t.Boolean? then value else "'" + Quoted(value) + "'"
  }

  function DeclaredDefault(attributes: seq<Attribute>): Option<string> {
    if attributes == [] then None
    else if attributes[0].Default? then Some(attributes[0].value) else DeclaredDefault(attributes[1..])
  }

  // A declared default wins; otherwise timestamps and JSON lists have conventional ones.
  function DefaultOf(f: Field): Option<string> {
    var declared := DeclaredDefault(f.attributes);
    if declared.Some? then Some(Literal(declared.value, f.fieldType))
    else if Snake(f.name) in ["created_at", "updated_at"] && f.fieldType.DateTime? then Some("NOW()")
    else if f.fieldType.Array? || f.fieldType.Blocks? then Some("'[]'::jsonb")
    else None
  }

  predicate IsPrimary(f: Field) { f.name == "id" || Primary in f.attributes }

  function ColumnOf(f: Field): Column {
    if IsPrimary(f) then Column("TEXT", Some("gen_random_uuid()::text"), true, true)
    else Column(SqlType(f.fieldType), DefaultOf(f), !f.optional, false)
  }

  // --- The compiler ---

  function FieldColumns(fields: seq<Field>): (columns: seq<(string, Column)>)
    ensures |columns| == |fields| && forall i :: 0 <= i < |fields| ==> columns[i] == (Snake(fields[i].name), ColumnOf(fields[i]))
  {
    if fields == [] then [] else FieldColumns(fields[..|fields| - 1]) + [(Snake(fields[|fields| - 1].name), ColumnOf(fields[|fields| - 1]))]
  }

  predicate Declares(fields: seq<Field>, column: string) { exists f <- fields :: Snake(f.name) == column }

  const STAMP := Column("TIMESTAMPTZ", Some("NOW()"), true, false)
  const DELETED := Column("TIMESTAMPTZ", None, false, false)
  const TENANT := Column("TEXT", None, false, false)

  function Unless(declared: bool, name: string, column: Column): seq<(string, Column)> { if declared then [] else [(name, column)] }

  function Appended(fields: seq<Field>): seq<(string, Column)> {
    Unless(Declares(fields, "created_at"), "created_at", STAMP) + Unless(Declares(fields, "updated_at"), "updated_at", STAMP) +
    Unless(Declares(fields, "deleted_at"), "deleted_at", DELETED) + Unless(Declares(fields, "tenant_id"), "tenant_id", TENANT)
  }

  function Forward(table: string, f: Field): seq<Statement> {
    if IsPrimary(f) then []
    else if f.optional || DefaultOf(f).Some? then [AddColumn(table, Snake(f.name), ColumnOf(f))]
    else [AddRequired(table, Snake(f.name), SqlType(f.fieldType))]
  }

  function Forwards(table: string, fields: seq<Field>): seq<Statement> {
    if fields == [] then [] else Forwards(table, fields[..|fields| - 1]) + Forward(table, fields[|fields| - 1])
  }

  function Marked(table: string, fields: seq<Field>, mark: Attribute): seq<Statement> {
    if fields == [] then []
    else
      var f := fields[|fields| - 1];
      Marked(table, fields[..|fields| - 1], mark) + if !IsPrimary(f) && mark in f.attributes then [MarkIndex(table, Snake(f.name), mark)] else []
  }

  function MarkIndex(table: string, column: string, mark: Attribute): Statement {
    if mark == Unique then CreateIndex("uq_" + table + "_" + column, IndexDef(table, [column], true, None))
    else CreateIndex("idx_" + table + "_" + column, IndexDef(table, [column], false, None))
  }

  function ConstraintStatement(table: string, n: nat, c: Constraint): Statement {
    match c
    case UniqueOn(columns) => CreateIndex("uq_" + table + "_" + Joined(SnakeAll(columns)), IndexDef(table, SnakeAll(columns), true, None))
    case IndexOn(columns) => CreateIndex("idx_" + table + "_" + Joined(SnakeAll(columns)), IndexDef(table, SnakeAll(columns), false, None))
    case UniqueWhere(columns, p) => CreateIndex("uq_" + table + "_" + Joined(SnakeAll(columns)), IndexDef(table, SnakeAll(columns), true, Some(p)))
    case IndexWhere(columns, p) => CreateIndex("idx_" + table + "_" + Joined(SnakeAll(columns)), IndexDef(table, SnakeAll(columns), false, Some(p)))
    case CheckThat(sql) => AddConstraint("chk_" + table + "_" + Digits(n), table, Check(None, Raw(sql), false))
  }

  function ConstraintStatements(table: string, constraints: seq<Constraint>): seq<Statement> {
    if constraints == [] then []
    else
      var n := |constraints| - 1;
      ConstraintStatements(table, constraints[..n]) + [ConstraintStatement(table, n, constraints[n])]
  }

  function ModelStatements(m: Model): seq<Statement> {
    [CreateTable(m.table, FieldColumns(m.fields) + Appended(m.fields))] + Forwards(m.table, m.fields)
    + [AddColumn(m.table, "deleted_at", DELETED), AddColumn(m.table, "tenant_id", TENANT)]
    + Marked(m.table, m.fields, Unique) + Marked(m.table, m.fields, Index) + ConstraintStatements(m.table, m.constraints)
  }

  function Tables(models: seq<Model>): seq<Statement> {
    if models == [] then [] else Tables(models[..|models| - 1]) + ModelStatements(models[|models| - 1])
  }

  // The table of a model of this name; of several, the last.
  function TableOf(models: seq<Model>, name: string): Option<string> {
    if models == [] then None
    else if models[|models| - 1].name == name then Some(models[|models| - 1].table) else TableOf(models[..|models| - 1], name)
  }

  function KeyColumn(r: Relationship): string {
    Snake(if r.foreignKey.Some? then r.foreignKey.value else r.name + "Id")
  }

  function ReferenceStatements(models: seq<Model>, m: Model, r: Relationship): seq<Statement> {
    var target := TableOf(models, r.model);
    if r.kind != "belongsTo" || target.None? || !Declares(m.fields, KeyColumn(r)) then []
    else [AddConstraint("fk_" + m.table + "_" + KeyColumn(r), m.table, ForeignKey(KeyColumn(r), target.value))]
  }

  function References(models: seq<Model>, m: Model, rs: seq<Relationship>): seq<Statement> {
    if rs == [] then [] else References(models, m, rs[..|rs| - 1]) + ReferenceStatements(models, m, rs[|rs| - 1])
  }

  function AllReferences(all: seq<Model>, models: seq<Model>): seq<Statement> {
    if models == [] then []
    else AllReferences(all, models[..|models| - 1]) + References(all, models[|models| - 1], models[|models| - 1].relationships)
  }

  function TestOf(f: Field, rule: Rule): Option<Test> {
    if rule.name == "email" then Some(Email)
    else if rule.name == "url" then Some(Url)
    else if rule.name == "min" && rule.number.Some? then Some(AtLeast(rule.number.value, !f.fieldType.Number?))
    else if rule.name == "max" && rule.number.Some? then Some(AtMost(rule.number.value, !f.fieldType.Number?))
    else None
  }

  function RuleChecks(table: string, f: Field, rules: seq<Rule>): seq<Statement> {
    if rules == [] then []
    else
      var rule := rules[|rules| - 1];
      var test := TestOf(f, rule);
      RuleChecks(table, f, rules[..|rules| - 1])
      + if test.None? then []
        else [AddConstraint("chk_" + table + "_" + Snake(f.name) + "_" + rule.name, table, Check(Some(Snake(f.name)), test.value, f.optional))]
  }

  function FieldNamed(fields: seq<Field>, name: string): Option<Field> {
    if fields == [] then None
    else if fields[|fields| - 1].name == name then Some(fields[|fields| - 1]) else FieldNamed(fields[..|fields| - 1], name)
  }

  function ModelChecks(m: Model, validation: seq<(string, seq<Rule>)>): seq<Statement> {
    if validation == [] then []
    else
      var (name, rules) := validation[|validation| - 1];
      var f := FieldNamed(m.fields, name);
      ModelChecks(m, validation[..|validation| - 1]) + if f.None? then [] else RuleChecks(m.table, f.value, rules)
  }

  function AllChecks(models: seq<Model>): seq<Statement> {
    if models == [] then []
    else AllChecks(models[..|models| - 1]) + ModelChecks(models[|models| - 1], models[|models| - 1].validation)
  }

  // Tables first, in any order; then references between them; then checks.
  function Generated(models: seq<Model>): seq<Statement> {
    Tables(models) + AllReferences(models, models) + AllChecks(models)
  }

  // The generator itself, pushing statement after statement.
  method GenerateMigrations(models: seq<Model>) returns (migrations: seq<Statement>)
    ensures migrations == Generated(models)
  {
    migrations := [];
    for i := 0 to |models|
      invariant migrations == Tables(models[..i])
    {
      assert models[..i + 1][..i] == models[..i];
      migrations := PushModel(models[i], migrations);
    }
    assert models[..|models|] == models;
    migrations := PushReferences(models, migrations);
    migrations := PushChecks(models, migrations);
  }

  method PushReferences(models: seq<Model>, tables: seq<Statement>) returns (migrations: seq<Statement>)
    ensures migrations == tables + AllReferences(models, models)
  {
    hide References;
    migrations := tables;
    for i := 0 to |models|
      invariant migrations == tables + AllReferences(models, models[..i])
    {
      assert models[..i + 1][..i] == models[..i];
      migrations := PushModelReferences(models, models[i], migrations);
    }
    assert models[..|models|] == models;
  }

  method PushModelReferences(models: seq<Model>, m: Model, before: seq<Statement>) returns (migrations: seq<Statement>)
    ensures migrations == before + References(models, m, m.relationships)
  {
    hide Declares, KeyColumn, TableOf;
    migrations := before;
    for j := 0 to |m.relationships|
      invariant migrations == before + References(models, m, m.relationships[..j])
    {
      assert m.relationships[..j + 1][..j] == m.relationships[..j];
      var r := m.relationships[j];
      var target := TableOf(models, r.model);
      if r.kind == "belongsTo" && target.Some? && Declares(m.fields, KeyColumn(r)) {
        migrations := migrations + [AddConstraint("fk_" + m.table + "_" + KeyColumn(r), m.table, ForeignKey(KeyColumn(r), target.value))];
      }
    }
    assert m.relationships[..|m.relationships|] == m.relationships;
  }

  method PushChecks(models: seq<Model>, references: seq<Statement>) returns (migrations: seq<Statement>)
    ensures migrations == references + AllChecks(models)
  {
    hide ModelChecks;
    migrations := references;
    for i := 0 to |models|
      invariant migrations == references + AllChecks(models[..i])
    {
      assert models[..i + 1][..i] == models[..i];
      migrations := PushModelChecks(models[i], migrations);
    }
    assert models[..|models|] == models;
  }

  method PushModelChecks(m: Model, before: seq<Statement>) returns (migrations: seq<Statement>)
    ensures migrations == before + ModelChecks(m, m.validation)
  {
    hide RuleChecks, FieldNamed;
    migrations := before;
    for j := 0 to |m.validation|
      invariant migrations == before + ModelChecks(m, m.validation[..j])
    {
      assert m.validation[..j + 1][..j] == m.validation[..j];
      var f := FieldNamed(m.fields, m.validation[j].0);
      if f.Some? {
        migrations := migrations + RuleChecks(m.table, f.value, m.validation[j].1);
      }
    }
    assert m.validation[..|m.validation|] == m.validation;
  }

  // One model's table, its fields forward-migrated, the platform columns, then indexes and constraints.
  method PushModel(m: Model, before: seq<Statement>) returns (migrations: seq<Statement>)
    ensures migrations == before + ModelStatements(m)
  {
    var columns: seq<(string, Column)> := [];
    var unique, indexed: seq<Statement> := [], [];
    for i := 0 to |m.fields|
      invariant columns == FieldColumns(m.fields[..i])
      invariant unique == Marked(m.table, m.fields[..i], Unique) && indexed == Marked(m.table, m.fields[..i], Index)
    {
      assert m.fields[..i + 1][..i] == m.fields[..i];
      var f := m.fields[i];
      columns := columns + [(Snake(f.name), ColumnOf(f))];
      if !IsPrimary(f) {
        if Unique in f.attributes { unique := unique + [MarkIndex(m.table, Snake(f.name), Unique)]; }
        if Index in f.attributes { indexed := indexed + [MarkIndex(m.table, Snake(f.name), Index)]; }
      }
    }
    var forwards: seq<Statement> := [];
    for i := 0 to |m.fields|
      invariant forwards == Forwards(m.table, m.fields[..i])
    {
      assert m.fields[..i + 1][..i] == m.fields[..i];
      forwards := forwards + Forward(m.table, m.fields[i]);
    }
    assert m.fields[..|m.fields|] == m.fields;
    var constraints := PushConstraints(m.table, m.constraints);
    migrations := before + ([CreateTable(m.table, columns + Appended(m.fields))] + forwards
      + [AddColumn(m.table, "deleted_at", DELETED), AddColumn(m.table, "tenant_id", TENANT)] + unique + indexed + constraints);
  }

  method PushConstraints(table: string, constraints: seq<Constraint>) returns (migrations: seq<Statement>)
    ensures migrations == ConstraintStatements(table, constraints)
  {
    migrations := [];
    for n := 0 to |constraints|
      invariant migrations == ConstraintStatements(table, constraints[..n])
    {
      assert constraints[..n + 1][..n] == constraints[..n];
      migrations := migrations + [ConstraintStatement(table, n, constraints[n])];
    }
    assert constraints[..|constraints|] == constraints;
  }
}
