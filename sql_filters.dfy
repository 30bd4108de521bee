/** The listing filters shared by `GET /api/participants` and `GET /api/participants/count`: how
    they are read from the query string and how `buildWhereClause` turns them into a WHERE clause
    with numbered placeholders and the values bound to them. */
module SqlFilters {
  import opened Text

  /** A query string: each parameter name with the value `searchParams.get` returns for it. */
  type Query = map<string, string>

  /** The filter object after the query string is read; `None` is `null`/`undefined`. */
  datatype Filters = Filters(countryCode: Option<string>, schemeId: Option<string>, companyName: Option<string>,
                             documentType: Option<string>, supportsInvoice: Option<bool>,
                             supportsCreditnote: Option<bool>, startDate: Option<string>, endDate: Option<string>)

  function QueryParam(q: Query, name: string): Option<string> {
    if name in q then Some(q[name]) else None
  }

  /** A JavaScript string value is truthy when present and non-empty. */
  predicate Truthy(v: Option<string>) {
    v.Some? && v.value != ""
  }

  /** `a || b` on string values. */
  function OrElse(a: Option<string>, b: Option<string>): Option<string> {
    if Truthy(a) then a else b
  }

  /** `searchParams.get(k) ? searchParams.get(k) === 'true' : undefined`. */
  function BoolParam(q: Query, name: string): Option<bool> {
    if Truthy(QueryParam(q, name)) then Some(QueryParam(q, name).value == "true") else None
  }

  /** The filter object literal of `GET`, before empty strings are dropped. */
  function CollectFilters(q: Query): Filters {
    Filters(OrElse(QueryParam(q, "country"), QueryParam(q, "countryCode")),
            OrElse(QueryParam(q, "scheme"), QueryParam(q, "schemeId")),
            OrElse(OrElse(QueryParam(q, "company"), QueryParam(q, "companyName")), QueryParam(q, "search")),
            OrElse(QueryParam(q, "documentType"), QueryParam(q, "docType")),
            BoolParam(q, "supportsInvoice"),
            BoolParam(q, "supportsCreditnote"),
            OrElse(QueryParam(q, "startDate"), QueryParam(q, "fromDate")),
            OrElse(QueryParam(q, "endDate"), QueryParam(q, "toDate")))
  }

  function EmptyToUndefined(v: Option<string>): Option<string> {
    if v == Some("") then None else v
  }

  /** The `forEach` that replaces every `''` in the filter object by `undefined`. */
  function DropEmpty(f: Filters): Filters {
    Filters(EmptyToUndefined(f.countryCode), EmptyToUndefined(f.schemeId), EmptyToUndefined(f.companyName),
            EmptyToUndefined(f.documentType), f.supportsInvoice, f.supportsCreditnote,
            EmptyToUndefined(f.startDate), EmptyToUndefined(f.endDate))
  }

  /** The value of the first alias whose parameter is non-empty. */
  function FirstNonEmpty(q: Query, aliases: seq<string>): (r: Option<string>)
    ensures r.Some? ==> r.value != "" && exists i :: 0 <= i < |aliases| && QueryParam(q, aliases[i]) == r
    ensures r.None? ==> forall i :: 0 <= i < |aliases| ==> !Truthy(QueryParam(q, aliases[i]))
  {
    if aliases == [] then None
    else if Truthy(QueryParam(q, aliases[0])) then QueryParam(q, aliases[0])
    else FirstNonEmpty(q, aliases[1..])
  }

  lemma AliasPair(q: Query, a: string, b: string)
    ensures EmptyToUndefined(OrElse(QueryParam(q, a), QueryParam(q, b))) == FirstNonEmpty(q, [a, b])
  {
    assert [a, b][1..] == [b] && [b][1..] == [];
  }

  lemma AliasTriple(q: Query, a: string, b: string, c: string)
    ensures EmptyToUndefined(OrElse(OrElse(QueryParam(q, a), QueryParam(q, b)), QueryParam(q, c))) == FirstNonEmpty(q, [a, b, c])
  {
    assert [a, b, c][1..] == [b, c] && [b, c][1..] == [c] && [c][1..] == [];
    assert FirstNonEmpty(q, [c]) == EmptyToUndefined(QueryParam(q, c));
    assert FirstNonEmpty(q, [b, c]) == EmptyToUndefined(OrElse(QueryParam(q, b), QueryParam(q, c)));
  }

  /** Read and cleaned, every text filter is the first non-empty alias in the source's alias order,
      and a boolean filter is set exactly when its parameter is non-empty, to whether it reads
      'true'. */
  lemma FiltersFromQuery(q: Query)
    ensures var f := DropEmpty(CollectFilters(q));
      f.countryCode == FirstNonEmpty(q, ["country", "countryCode"])
      && f.schemeId == FirstNonEmpty(q, ["scheme", "schemeId"])
      && f.companyName == FirstNonEmpty(q, ["company", "companyName", "search"])
      && f.documentType == FirstNonEmpty(q, ["documentType", "docType"])
      && f.startDate == FirstNonEmpty(q, ["startDate", "fromDate"])
      && f.endDate == FirstNonEmpty(q, ["endDate", "toDate"])
      && (f.supportsInvoice.Some? <==> Truthy(QueryParam(q, "supportsInvoice")))
      && (f.supportsInvoice.Some? ==> (f.supportsInvoice.value <==> q["supportsInvoice"] == "true"))
      && (f.supportsCreditnote.Some? <==> Truthy(QueryParam(q, "supportsCreditnote")))
      && (f.supportsCreditnote.Some? ==> (f.supportsCreditnote.value <==> q["supportsCreditnote"] == "true"))
  {
    AliasPair(q, "country", "countryCode");
    AliasPair(q, "scheme", "schemeId");
    AliasTriple(q, "company", "companyName", "search");
    AliasPair(q, "documentType", "docType");
    AliasPair(q, "startDate", "fromDate");
    AliasPair(q, "endDate", "toDate");
  }

  /** The filter columns, in the order `buildWhereClause` tests them. */
  datatype Field = Country | Scheme | Company | Invoice | Creditnote | DocType | Start | End

  function Rank(x: Field): nat {
    match x
    case Country => 0 case Scheme => 1 case Company => 2 case Invoice => 3
    case Creditnote => 4 case DocType => 5 case Start => 6 case End => 7
  }

  /** Whether `buildWhereClause` adds a condition for the field: text filters when truthy, boolean
      filters whenever defined, `false` included. */
  predicate IsSet(f: Filters, x: Field) {
    match x
    case Country => Truthy(f.countryCode)
    case Scheme => Truthy(f.schemeId)
    case Company => Truthy(f.companyName)
    case Invoice => f.supportsInvoice.Some?
    case Creditnote => f.supportsCreditnote.Some?
    case DocType => Truthy(f.documentType)
    case Start => Truthy(f.startDate)
    case End => Truthy(f.endDate)
  }

  /** A value bound to a placeholder. */
  datatype SqlValue = Text(text: string) | Flag(flag: bool) | Number(number: int)

  function TextOf(v: Option<string>): string {
    if v.Some? then v.value else ""
  }

  /** The value bound for a set field: the upper-cased country code, `%…%` around the company
      name and the document type, the others as given. */
  function ValueOf(f: Filters, x: Field): SqlValue {
    match x
    case Country => Text(Upper(TextOf(f.countryCode)))
    case Scheme => Text(TextOf(f.schemeId))
    case Company => Text("%" + TextOf(f.companyName) + "%")
    case Invoice => Flag(f.supportsInvoice.Some? && f.supportsInvoice.value)
    case Creditnote => Flag(f.supportsCreditnote.Some? && f.supportsCreditnote.value)
    case DocType => Text("%" + TextOf(f.documentType) + "%")
    case Start => Text(TextOf(f.startDate))
    case End => Text(TextOf(f.endDate))
  }

  function Opt(f: Filters, x: Field): seq<Field> {
    if IsSet(f, x) then [x] else []
  }

  /** The fields that get a condition, in test order. */
  function Active(f: Filters): seq<Field> {
    Opt(f, Country) + Opt(f, Scheme) + Opt(f, Company) + Opt(f, Invoice)
    + Opt(f, Creditnote) + Opt(f, DocType) + Opt(f, Start) + Opt(f, End)
  }

  predicate RankOrdered(fields: seq<Field>) {
    forall i, j :: 0 <= i < j < |fields| ==> Rank(fields[i]) < Rank(fields[j])
  }

  /** Appending a field ranked above everything present keeps the order. */
  lemma AppendOrdered(fields: seq<Field>, f: Filters, x: Field)
    requires RankOrdered(fields) && forall y :: y in fields ==> Rank(y) < Rank(x)
    ensures RankOrdered(fields + Opt(f, x))
    ensures forall y :: y in fields + Opt(f, x) ==> Rank(y) <= Rank(x)
  {
    var r := fields + Opt(f, x);
    forall i, j | 0 <= i < j < |r| ensures Rank(r[i]) < Rank(r[j]) {
      if j >= |fields| {
        assert r[i] in fields;
      }
    }
  }

  /** A field is active exactly when it is set, and active fields keep the fixed order. */
  lemma ActiveSpec(f: Filters)
    ensures forall x :: x in Active(f) <==> IsSet(f, x)
    ensures RankOrdered(Active(f))
  {
    forall x ensures x in Active(f) <==> IsSet(f, x) {
      ActiveMember(f, x);
    }
    ActiveOrdered(f);
  }

  lemma ActiveMember(f: Filters, x: Field)
    ensures x in Active(f) <==> IsSet(f, x)
  {
    InOpt(f, x, Country);
    InOpt(f, x, Scheme);
    InOpt(f, x, Company);
    InOpt(f, x, Invoice);
    InOpt(f, x, Creditnote);
    InOpt(f, x, DocType);
    InOpt(f, x, Start);
    InOpt(f, x, End);
  }

  /** A field occurs in its own slot of `Active` exactly when it is set, and in no other slot. */
  lemma InOpt(f: Filters, x: Field, y: Field)
    ensures x in Opt(f, y) <==> x == y && IsSet(f, y)
  {
  }

  lemma ActiveOrdered(f: Filters)
    ensures RankOrdered(Active(f))
  {
    var a1 := Opt(f, Country);
    AppendOrdered([], f, Country);
    assert [] + a1 == a1;
    AppendOrdered(a1, f, Scheme);
    var a2 := a1 + Opt(f, Scheme);
    AppendOrdered(a2, f, Company);
    var a3 := a2 + Opt(f, Company);
    AppendOrdered(a3, f, Invoice);
    var a4 := a3 + Opt(f, Invoice);
    AppendOrdered(a4, f, Creditnote);
    var a5 := a4 + Opt(f, Creditnote);
    AppendOrdered(a5, f, DocType);
    var a6 := a5 + Opt(f, DocType);
    AppendOrdered(a6, f, Start);
    var a7 := a6 + Opt(f, Start);
    AppendOrdered(a7, f, End);
  }

  /** One piece of SQL text: literal text, or the placeholder `$k`. */
  datatype Piece = Lit(text: string) | Param(index: nat)

  type Sql = seq<Piece>

  /** The SQL text the pieces spell. */
  function Render(q: Sql): string {
    if q == [] then "" else Render(q[..|q| - 1]) + PieceText(q[|q| - 1])
  }

  function PieceText(p: Piece): string {
    match p
    case Lit(t) => t
    case Param(k) => "$" + NatToString(k)
  }

  /** The condition for a field, with its placeholder number `k`; the document-type condition
      names the same placeholder three times. */
  function ConditionSql(x: Field, k: nat): Sql {
    match x
    case Country => [Lit("country_code = "), Param(k)]
    case Scheme => [Lit("scheme_id = "), Param(k)]
    case Company => [Lit("company_name ILIKE "), Param(k)]
    case Invoice => [Lit("supports_invoice = "), Param(k)]
    case Creditnote => [Lit("supports_creditnote = "), Param(k)]
    case DocType => [Lit("(\n      document_types::text ILIKE "), Param(k), Lit(" OR \n      raw_document_types ILIKE "),
                     Param(k), Lit(" OR\n      (document_types IS NOT NULL AND document_types::text ILIKE "), Param(k),
                     Lit(")\n    )")]
    case Start => [Lit("registration_date >= "), Param(k)]
    case End => [Lit("registration_date <= "), Param(k)]
  }

  /** The placeholders a condition names are its own number only. */
  lemma ConditionParams(x: Field, k: nat, m: nat)
    ensures Param(m) in ConditionSql(x, k) <==> m == k
  {
  }

  /** The conditions of the fields, numbered from 1 in order. */
  function ConditionsOf(fields: seq<Field>): (r: seq<Sql>)
    ensures |r| == |fields|
  {
    if fields == [] then [] else ConditionsOf(fields[..|fields| - 1]) + [ConditionSql(fields[|fields| - 1], |fields|)]
  }

  /** The values bound to the fields, in order. */
  function ValuesOf(f: Filters, fields: seq<Field>): (r: seq<SqlValue>)
    ensures |r| == |fields|
  {
    if fields == [] then [] else ValuesOf(f, fields[..|fields| - 1]) + [ValueOf(f, fields[|fields| - 1])]
  }

  lemma {:induction false} ConditionsOfShape(fields: seq<Field>)
    ensures |ConditionsOf(fields)| == |fields|
    ensures forall i :: 0 <= i < |fields| ==> ConditionsOf(fields)[i] == ConditionSql(fields[i], i + 1)
  {
    if fields != [] {
      var init := fields[..|fields| - 1];
      ConditionsOfShape(init);
      var prev := ConditionsOf(init);
      assert ConditionsOf(fields) == prev + [ConditionSql(fields[|fields| - 1], |fields|)];
      forall i | 0 <= i < |init| ensures ConditionsOf(fields)[i] == ConditionSql(fields[i], i + 1) {
        assert ConditionsOf(fields)[i] == prev[i];
        assert init[i] == fields[i];
      }
    }
  }

  lemma {:induction false} ValuesOfShape(f: Filters, fields: seq<Field>)
    ensures |ValuesOf(f, fields)| == |fields|
    ensures forall i :: 0 <= i < |fields| ==> ValuesOf(f, fields)[i] == ValueOf(f, fields[i])
  {
    if fields != [] {
      var init := fields[..|fields| - 1];
      ValuesOfShape(f, init);
      forall i | 0 <= i < |init| ensures ValuesOf(f, fields)[i] == ValueOf(f, fields[i]) {
        assert init[i] == fields[i];
      }
    }
  }

  /** Adding a field adds its condition under the next number and its value. */
  lemma AddField(f: Filters, fields: seq<Field>, x: Field)
    ensures ConditionsOf(fields + [x]) == ConditionsOf(fields) + [ConditionSql(x, |fields| + 1)]
    ensures ValuesOf(f, fields + [x]) == ValuesOf(f, fields) + [ValueOf(f, x)]
  {
    assert (fields + [x])[..|fields|] == fields;
  }

  /** `conditions.join(' AND ')`. */
  function JoinAnd(conditions: seq<Sql>): Sql {
    if |conditions| <= 1 then (if conditions == [] then [] else conditions[0])
    else JoinAnd(conditions[..|conditions| - 1]) + [Lit(" AND ")] + conditions[|conditions| - 1]
  }

  lemma {:induction false} JoinAndParams(conditions: seq<Sql>, m: nat)
    ensures Param(m) in JoinAnd(conditions) <==> exists i :: 0 <= i < |conditions| && Param(m) in conditions[i]
  {
    if |conditions| > 1 {
      var init := conditions[..|conditions| - 1];
      JoinAndParams(init, m);
      if i :| 0 <= i < |conditions| && Param(m) in conditions[i] {
        if i < |init| {
          assert init[i] == conditions[i];
        }
      }
    }
  }

  /** The clause for the conditions: `WHERE` and their conjunction, or nothing. */
  function WhereOf(conditions: seq<Sql>): Sql {
    if |conditions| > 0 then [Lit("WHERE ")] + JoinAnd(conditions) else []
  }

  /** One of the eight blocks of `buildWhereClause`: when the field's filter is set, bump the
      counter, push the field's condition under the new number and push its value. */
  method AddIfSet(filters: Filters, x: Field, conditions: seq<Sql>, values: seq<SqlValue>,
                  paramCount: nat, ghost fields: seq<Field>)
    returns (conditions': seq<Sql>, values': seq<SqlValue>, paramCount': nat)
    requires conditions == ConditionsOf(fields) && values == ValuesOf(filters, fields) && paramCount == |fields|
    ensures conditions' == ConditionsOf(fields + Opt(filters, x)) && values' == ValuesOf(filters, fields + Opt(filters, x))
    ensures paramCount' == |fields + Opt(filters, x)|
  {
    if IsSet(filters, x) {
      paramCount' := paramCount + 1;
      conditions' := conditions + [ConditionSql(x, paramCount')];
      values' := values + [ValueOf(filters, x)];
      AddField(filters, fields, x);
    } else {
      assert fields + Opt(filters, x) == fields;
      conditions', values', paramCount' := conditions, values, paramCount;
    }
  }

  /** `buildWhereClause`: the eight blocks in their fixed order, then `WHERE` and the conjunction
      of the conditions, or nothing. */
  method BuildWhereClause(filters: Filters) returns (whereClause: Sql, values: seq<SqlValue>)
    ensures whereClause == WhereOf(ConditionsOf(Active(filters)))
    ensures values == ValuesOf(filters, Active(filters))
  {
    var conditions: seq<Sql> := [];
    values := [];
    var paramCount: nat := 0;
    conditions, values, paramCount := AddIfSet(filters, Country, conditions, values, paramCount, []);
    ghost var fields := Opt(filters, Country);
    assert [] + fields == fields;
    conditions, values, paramCount := AddIfSet(filters, Scheme, conditions, values, paramCount, fields);
    fields := fields + Opt(filters, Scheme);
    conditions, values, paramCount := AddIfSet(filters, Company, conditions, values, paramCount, fields);
    fields := fields + Opt(filters, Company);
    conditions, values, paramCount := AddIfSet(filters, Invoice, conditions, values, paramCount, fields);
    fields := fields + Opt(filters, Invoice);
    conditions, values, paramCount := AddIfSet(filters, Creditnote, conditions, values, paramCount, fields);
    fields := fields + Opt(filters, Creditnote);
    conditions, values, paramCount := AddIfSet(filters, DocType, conditions, values, paramCount, fields);
    fields := fields + Opt(filters, DocType);
    conditions, values, paramCount := AddIfSet(filters, Start, conditions, values, paramCount, fields);
    fields := fields + Opt(filters, Start);
    conditions, values, paramCount := AddIfSet(filters, End, conditions, values, paramCount, fields);
    fields := fields + Opt(filters, End);
    whereClause := if |conditions| > 0 then [Lit("WHERE ")] + JoinAnd(conditions) else [];
  }

  /** The clause is empty exactly when no filter is set; otherwise the placeholders it names are
      exactly `$1..$n` for the `n` values bound, and value `k` belongs to the `k`-th set field. */
  lemma WhereClauseSpec(f: Filters)
    ensures var where, values := WhereOf(ConditionsOf(Active(f))), ValuesOf(f, Active(f));
      (where == [] <==> forall x :: !IsSet(f, x))
      && |values| == |Active(f)|
      && (forall m: nat :: Param(m) in where <==> 1 <= m <= |values|)
      && (forall k :: 0 <= k < |values| ==> IsSet(f, Active(f)[k]) && values[k] == ValueOf(f, Active(f)[k]))
  {
    var fields := Active(f);
    ActiveSpec(f);
    ValuesOfShape(f, fields);
    WhereEmptyIff(f);
    forall m: nat ensures Param(m) in WhereOf(ConditionsOf(fields)) <==> 1 <= m <= |fields| {
      WhereParam(fields, m);
    }
  }

  /** Every set field's value is among the values bound. */
  lemma SetValuesBound(f: Filters)
    ensures forall x :: IsSet(f, x) ==> ValueOf(f, x) in ValuesOf(f, Active(f))
  {
    ValuesOfShape(f, Active(f));
    forall x | IsSet(f, x) ensures ValueOf(f, x) in ValuesOf(f, Active(f)) {
      ActiveMember(f, x);
      var k :| 0 <= k < |Active(f)| && Active(f)[k] == x;
      assert ValuesOf(f, Active(f))[k] == ValueOf(f, x);
    }
  }

  lemma WhereEmptyIff(f: Filters)
    ensures WhereOf(ConditionsOf(Active(f))) == [] <==> forall x :: !IsSet(f, x)
  {
    var fields := Active(f);
    if fields == [] {
      forall x ensures !IsSet(f, x) {
        ActiveMember(f, x);
      }
    } else {
      ActiveMember(f, fields[0]);
    }
  }

  /** Placeholder `$m` occurs in the clause exactly when `m` numbers one of the fields. */
  lemma WhereParam(fields: seq<Field>, m: nat)
    ensures Param(m) in WhereOf(ConditionsOf(fields)) <==> 1 <= m <= |fields|
  {
    var conditions := ConditionsOf(fields);
    WhereOfParams(conditions, m);
    if 1 <= m <= |fields| {
      NumberedCondition(fields, m - 1, m);
    }
    forall i | 0 <= i < |conditions| && Param(m) in conditions[i] ensures 1 <= m <= |fields| {
      NumberedCondition(fields, i, m);
    }
  }

  lemma WhereOfParams(conditions: seq<Sql>, m: nat)
    ensures Param(m) in WhereOf(conditions) <==> exists i :: 0 <= i < |conditions| && Param(m) in conditions[i]
  {
    JoinAndParams(conditions, m);
    if |conditions| > 0 {
      assert Param(m) in WhereOf(conditions) <==> Param(m) in JoinAnd(conditions);
    }
  }

  /** Condition `i` names placeholder `$(i+1)` and no other. */
  lemma NumberedCondition(fields: seq<Field>, i: nat, m: nat)
    requires i < |fields|
    ensures i < |ConditionsOf(fields)| && (Param(m) in ConditionsOf(fields)[i] <==> m == i + 1)
  {
    ConditionsOfShape(fields);
    ConditionParams(fields[i], i + 1, m);
  }

  /** `SELECT COUNT(*) FROM participants ${whereClause}`. */
  function CountSql(where: Sql): Sql {
    [Lit("SELECT COUNT(*) FROM participants ")] + where
  }

  /** The placeholder numbers the SQL names, in order of appearance. */
  function ParamsOf(q: Sql): seq<nat> {
    if q == [] then [] else ParamsOf(q[..|q| - 1]) + (if q[|q| - 1].Param? then [q[|q| - 1].index] else [])
  }

  /** The document-type condition names its single placeholder three times; every other condition
      names it once. */
  lemma ConditionParamsOf(x: Field, k: nat)
    ensures ParamsOf(ConditionSql(x, k)) == if x == DocType then [k, k, k] else [k]
  {
    var c := ConditionSql(x, k);
    if x == DocType {
      assert c[..1][..0] == [];
      assert c[..2][..1] == c[..1] && c[..3][..2] == c[..2] && c[..4][..3] == c[..3];
      assert c[..5][..4] == c[..4] && c[..6][..5] == c[..5] && c[..7][..6] == c[..6] && c[..7] == c;
      assert ParamsOf(c[..1]) == [];
      assert ParamsOf(c[..2]) == [k];
      assert ParamsOf(c[..3]) == [k];
      assert ParamsOf(c[..4]) == [k, k];
      assert ParamsOf(c[..5]) == [k, k];
      assert ParamsOf(c[..6]) == [k, k, k];
    } else {
      assert c[..1][..0] == [];
      assert ParamsOf(c[..1]) == [];
    }
  }

  /** The rendered placeholder names its number: distinct numbers give distinct text. */
  lemma PlaceholderText(k: nat, m: nat)
    ensures Render([Param(k)]) == Render([Param(m)]) <==> k == m
  {
    RenderParam(k);
    RenderParam(m);
    var a, b := Render([Param(k)]), Render([Param(m)]);
    if a == b {
      assert a[1..] == NatToString(k) && b[1..] == NatToString(m);
      NatToStringInjective(k, m);
    }
  }

  lemma RenderParam(k: nat)
    ensures Render([Param(k)]) == "$" + NatToString(k)
  {
    assert [Param(k)][..0] == [];
  }
}
