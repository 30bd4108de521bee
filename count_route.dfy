/** `GET /api/participants/count`: the filters read from the query string and the count query
    built from them. */
module CountRoute {
  import opened Text
  import opened SqlFilters

  /** The count query and the values bound to it. */
  datatype CountQuery = CountQuery(sql: Sql, values: seq<SqlValue>)

  /** `GET`: read the filters with their aliases, drop the empty ones and build the query
      `getParticipantCount` sends. */
  function GetCount(q: Query): CountQuery {
    var filters := DropEmpty(CollectFilters(q));
    CountQuery(CountSql(WhereOf(ConditionsOf(Active(filters)))), ValuesOf(filters, Active(filters)))
  }

  /** No alias of any text filter is non-empty and neither boolean parameter is. */
  predicate NoFilterParams(q: Query) {
    FirstNonEmpty(q, ["country", "countryCode"]).None? && FirstNonEmpty(q, ["scheme", "schemeId"]).None?
    && FirstNonEmpty(q, ["company", "companyName", "search"]).None?
    && FirstNonEmpty(q, ["documentType", "docType"]).None?
    && FirstNonEmpty(q, ["startDate", "fromDate"]).None? && FirstNonEmpty(q, ["endDate", "toDate"]).None?
    && !Truthy(QueryParam(q, "supportsInvoice")) && !Truthy(QueryParam(q, "supportsCreditnote"))
  }

  /** The parameters give no filter exactly when the cleaned filters set no field. */
  lemma NoFilterParamsIff(q: Query)
    ensures NoFilterParams(q) <==> forall x :: !IsSet(DropEmpty(CollectFilters(q)), x)
  {
    var f := DropEmpty(CollectFilters(q));
    FiltersFromQuery(q);
    assert IsSet(f, Country) <==> f.countryCode.Some?;
    assert IsSet(f, Scheme) <==> f.schemeId.Some?;
    assert IsSet(f, Company) <==> f.companyName.Some?;
    assert IsSet(f, DocType) <==> f.documentType.Some?;
    assert IsSet(f, Start) <==> f.startDate.Some?;
    assert IsSet(f, End) <==> f.endDate.Some?;
    assert IsSet(f, Invoice) <==> Truthy(QueryParam(q, "supportsInvoice"));
    assert IsSet(f, Creditnote) <==> Truthy(QueryParam(q, "supportsCreditnote"));
    if NoFilterParams(q) {
      forall x ensures !IsSet(f, x) {
        match x
        case Country => case Scheme => case Company => case Invoice =>
        case Creditnote => case DocType => case Start => case End =>
      }
    }
  }

  /** The query counts every participant, with no WHERE clause and no values, exactly when no
      filter parameter is given; otherwise its placeholders are `$1..$n` for its `n` values. */
  lemma CountQuerySpec(q: Query)
    ensures var r := GetCount(q);
      (r.sql == CountSql([]) <==> NoFilterParams(q))
      && (r.values == [] <==> NoFilterParams(q))
      && (forall m: nat :: Param(m) in r.sql <==> 1 <= m <= |r.values|)
  {
    var f := DropEmpty(CollectFilters(q));
    NoFilterParamsIff(q);
    WhereClauseSpec(f);
    var where := WhereOf(ConditionsOf(Active(f)));
    if where != [] {
      assert |CountSql(where)| > |CountSql([])|;
    }
    forall m: nat ensures Param(m) in CountSql(where) <==> Param(m) in where {
    }
  }

  /** The values bound for the individual filters: the country code upper-cased, the company name
      and the document type wrapped in `%`, and a boolean filter whenever its parameter is
      non-empty, `false` included. */
  lemma CountValues(q: Query)
    ensures var r := GetCount(q);
      (FirstNonEmpty(q, ["country", "countryCode"]).Some? ==>
         Text(Upper(FirstNonEmpty(q, ["country", "countryCode"]).value)) in r.values)
      && (FirstNonEmpty(q, ["company", "companyName", "search"]).Some? ==>
            Text("%" + FirstNonEmpty(q, ["company", "companyName", "search"]).value + "%") in r.values)
      && (FirstNonEmpty(q, ["documentType", "docType"]).Some? ==>
            Text("%" + FirstNonEmpty(q, ["documentType", "docType"]).value + "%") in r.values)
      && (Truthy(QueryParam(q, "supportsInvoice")) ==> Flag(q["supportsInvoice"] == "true") in r.values)
      && (Truthy(QueryParam(q, "supportsCreditnote")) ==> Flag(q["supportsCreditnote"] == "true") in r.values)
  {
    var f := DropEmpty(CollectFilters(q));
    assert GetCount(q).values == ValuesOf(f, Active(f));
    FiltersFromQuery(q);
    SetValuesBound(f);
    if Truthy(QueryParam(q, "supportsInvoice")) {
      assert IsSet(f, Invoice);
    }
    if Truthy(QueryParam(q, "supportsCreditnote")) {
      assert IsSet(f, Creditnote);
    }
    if FirstNonEmpty(q, ["country", "countryCode"]).Some? {
      assert IsSet(f, Country);
    }
    if FirstNonEmpty(q, ["company", "companyName", "search"]).Some? {
      assert IsSet(f, Company);
    }
    if FirstNonEmpty(q, ["documentType", "docType"]).Some? {
      assert IsSet(f, DocType);
    }
  }

  /** A document-type filter binds one value and its condition names that value's placeholder
      three times. */
  lemma CountDocTypeOnePlaceholder(q: Query)
    requires FirstNonEmpty(q, ["documentType", "docType"]).Some?
    ensures var f := DropEmpty(CollectFilters(q));
      exists i :: 0 <= i < |Active(f)| && Active(f)[i] == DocType
        && ParamsOf(ConditionsOf(Active(f))[i]) == [i + 1, i + 1, i + 1]
        && ValuesOf(f, Active(f))[i] == Text("%" + FirstNonEmpty(q, ["documentType", "docType"]).value + "%")
  {
    FiltersFromQuery(q);
    var i := DocTypeCondition(DropEmpty(CollectFilters(q)));
  }

  lemma DocTypeCondition(f: Filters) returns (i: nat)
    requires IsSet(f, DocType)
    ensures i < |Active(f)| && Active(f)[i] == DocType
    ensures ParamsOf(ConditionsOf(Active(f))[i]) == [i + 1, i + 1, i + 1]
    ensures ValuesOf(f, Active(f))[i] == ValueOf(f, DocType)
  {
    ActiveSpec(f);
    ConditionsOfShape(Active(f));
    ValuesOfShape(f, Active(f));
    i :| 0 <= i < |Active(f)| && Active(f)[i] == DocType;
    ConditionParamsOf(DocType, i + 1);
  }
}
