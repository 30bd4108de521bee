/** The business-card XML loader: the document-type name of a `doctypeid` value, the per-card
    record, the map of records by full participant id, and the batched upsert statements. */
module BusinessCards {
  import opened Text
  import opened Seqs
  import opened PeppolIds
  import opened Batch

  /** The names tried, in order, when neither identifier pattern matches. */
  const Keywords: seq<string> := ["CrossIndustryInvoice", "ApplicationResponse", "Order", "Catalogue"]

  /** The first keyword the value contains. */
  function KeywordOf(value: string): (r: Option<string>)
    ensures r.Some? ==> r.value in Keywords && Contains(value, r.value)
    ensures r.None? ==> forall kw :: kw in Keywords ==> !Contains(value, kw)
  {
    if Contains(value, "CrossIndustryInvoice") then Some("CrossIndustryInvoice")
    else if Contains(value, "ApplicationResponse") then Some("ApplicationResponse")
    else if Contains(value, "Order") then Some("Order")
    else if Contains(value, "Catalogue") then Some("Catalogue")
    else None
  }

  /** `extractDocumentType`: `None` is the source's `null`. */
  function ExtractDocumentType(value: string): (r: Option<string>)
    ensures value == "" ==> r.None?
    ensures r.Some? ==> r.value != ""
  {
    if value == "" then None
    else match Capture(VersionedName, value)
      case Some(y) => Some(y)
      case None =>
        match Capture(PlainName, value)
        case Some(x) => Some(x)
        case None => KeywordOf(value)
  }

  /** Wherever `::X-2::Y##` stands, the result is the `Y` of such an occurrence at or before it:
      the versioned pattern takes priority over everything else. */
  lemma VersionedWins(value: string, p: nat, n: nat, y: string)
    requires VersionedAt(value, p, n, y)
    ensures ExtractDocumentType(value).Some?
    ensures exists q: nat, m: nat :: q <= p && VersionedAt(value, q, m, ExtractDocumentType(value).value)
  {
    VersionedMatchComplete(value, p, n, y);
    var q := FirstMatchFrom(VersionedName, value, 0).value;
    var r := MatchAt(VersionedName, value, q).value;
    VersionedMatchSound(value, q, r);
  }

  /** Without a versioned occurrence, an occurrence of `::X##` decides: the result is the `X` of
      such an occurrence at or before it, ahead of any keyword. */
  lemma PlainBeforeKeywords(value: string, p: nat, x: string)
    requires forall q :: MatchAt(VersionedName, value, q).None?
    requires MatchAt(PlainName, value, p) == Some(x)
    ensures ExtractDocumentType(value).Some?
    ensures exists q: nat :: q <= p && MatchAt(PlainName, value, q) == ExtractDocumentType(value)
  {
    assert value != "";
    assert Capture(VersionedName, value).None?;
  }

  /** Every versioned occurrence `::X-2::Y##` holds a plain occurrence `::Y##`. */
  lemma VersionedHoldsPlain(value: string, p: nat, n: nat, y: string)
    requires VersionedAt(value, p, n, y)
    ensures MatchAt(PlainName, value, p + n + 4) == Some(y)
  {
    var q := p + n + 4;
    assert OccursAt(value, "::", q) by {
      OccursInside(value, "-2::", p + 2 + n, 2, 2);
      assert "-2::"[2..4] == "::";
    }
    assert OccursAt(value, y, q + 2) && OccursAt(value, "##", q + 2 + |y|);
    PlainMatchIff(value, q, y);
  }

  /** With no `::X##` anywhere, the keyword cascade alone decides. */
  lemma KeywordFallback(value: string)
    requires value != ""
    requires forall q :: MatchAt(PlainName, value, q).None?
    ensures ExtractDocumentType(value) == KeywordOf(value)
  {
    if Capture(VersionedName, value).Some? {
      var q := FirstMatchFrom(VersionedName, value, 0).value;
      var y := MatchAt(VersionedName, value, q).value;
      VersionedMatchSound(value, q, y);
      VersionedHoldsPlain(value, q, LetterRun(value, q + 2), y);
      assert false;
    }
  }

  // ---------------------------------------------------------------------------------------------
  // One card

  /** `entity.name`: absent, one element, or an array of elements; a missing `@_name` is "". */
  datatype NameField = NoName | OneName(name: string) | NameList(names: seq<string>)

  datatype Entity = Entity(name: NameField, countryCode: Option<string>, regdate: Option<string>)

  /** A parsed `businesscard`: the participant's `@_value` ("" when missing), the entity, and the
      `@_value` of each `doctypeid` ("" when missing). */
  datatype Card = Card(participantValue: string, entity: Option<Entity>, doctypeValues: seq<string>)

  datatype CardData = CardData(companyName: string, rawDocumentTypes: string, documentTypes: seq<string>,
                               supportsInvoice: bool, supportsCreditnote: bool, schemeId: string,
                               endpointId: string, countryCode: Option<string>, registrationDate: Option<string>)

  /** The company name; `None` when `entity.name` is an empty array, whose first element the
      source dereferences and throws on, so the card is skipped. */
  function CompanyName(entity: Option<Entity>): (r: Option<string>)
    ensures r.Some? ==> r.value != ""
    ensures r.None? <==> entity.Some? && entity.value.name == NameList([])
  {
    if entity.None? then Some("Unknown")
    else match entity.value.name
      case NoName => Some("Unknown")
      case OneName(n) => Some(if n == "" then "Unknown" else n)
      case NameList(ns) => if ns == [] then None else Some(if ns[0] == "" then "Unknown" else ns[0])
  }

  predicate HasName(value: string) {
    ExtractDocumentType(value).Some?
  }

  function NameOf(value: string): string {
    match ExtractDocumentType(value)
    case Some(n) => n
    case None => ""
  }

  /** The names extracted from the `doctypeid` values, in order, duplicates kept. */
  function ExtractedTypes(values: seq<string>): seq<string> {
    FilterMap(values, HasName, NameOf)
  }

  /** Some name contains `word` once lower-cased. */
  predicate Mentions(types: seq<string>, word: string) {
    exists i :: 0 <= i < |types| && Contains(Lower(types[i]), word)
  }

  /** The per-card body of the loop: `None` when the card is skipped, else its map key and record. */
  function TransformCard(card: Card): Option<(string, CardData)> {
    match SplitPid(card.participantValue)
    case None => None
    case Some((schemeId, endpointId)) =>
      match CompanyName(card.entity)
      case None => None
      case Some(companyName) =>
        var types := ExtractedTypes(card.doctypeValues);
        var unique := Dedup(types);
        Some((FullPid(schemeId, endpointId),
              CardData(companyName, Join(types, ", "), unique,
                       Mentions(unique, "invoice"), Mentions(unique, "creditnote"),
                       schemeId, endpointId,
                       if card.entity.Some? then card.entity.value.countryCode else None,
                       if card.entity.Some? then card.entity.value.regdate else None)))
  }

  /** A card is kept exactly when its value splits into a non-empty scheme and endpoint and its
      name field is not an empty array; the key is `scheme:endpoint` of colon-free parts that
      start the participant value. */
  lemma TransformCardKey(card: Card)
    ensures TransformCard(card).Some? <==>
      SplitPid(card.participantValue).Some? && !(card.entity.Some? && card.entity.value.name == NameList([]))
    ensures TransformCard(card).Some? ==>
      var (pid, d) := TransformCard(card).value;
      pid == FullPid(d.schemeId, d.endpointId) && d.schemeId != "" && d.endpointId != ""
      && ':' !in d.schemeId && ':' !in d.endpointId && StartsWith(card.participantValue, pid)
      && d.companyName != ""
  {
    if SplitPid(card.participantValue).Some? {
      SplitPidSound(card.participantValue);
    }
  }

  /** The stored list is the extracted names without repeats, in first-seen order of the same
      members; each name comes from one of the card's values; the flags read the deduplicated
      list but agree with the full one. */
  lemma TransformCardTypes(card: Card)
    requires TransformCard(card).Some?
    ensures var d := TransformCard(card).value.1;
      var types := ExtractedTypes(card.doctypeValues);
      && d.rawDocumentTypes == Join(types, ", ")
      && (forall t :: t in d.documentTypes <==> t in types)
      && (forall i, j :: 0 <= i < j < |d.documentTypes| ==> d.documentTypes[i] != d.documentTypes[j])
      && (forall i, j :: 0 <= i < j < |d.documentTypes| ==> FirstIndex(types, d.documentTypes[i]) < FirstIndex(types, d.documentTypes[j]))
      && (forall t :: t in d.documentTypes ==> exists i :: 0 <= i < |card.doctypeValues| && ExtractDocumentType(card.doctypeValues[i]) == Some(t))
      && (d.supportsInvoice <==> Mentions(types, "invoice"))
      && (d.supportsCreditnote <==> Mentions(types, "creditnote"))
  {
    var types := ExtractedTypes(card.doctypeValues);
    DedupProperties(types);
    forall t | t in types
      ensures exists i :: 0 <= i < |card.doctypeValues| && ExtractDocumentType(card.doctypeValues[i]) == Some(t)
    {
      FilterMapMember(card.doctypeValues, HasName, NameOf, t);
    }
    MentionsSameMembers(Dedup(types), types, "invoice");
    MentionsSameMembers(Dedup(types), types, "creditnote");
  }

  lemma MentionsSameMembers(a: seq<string>, b: seq<string>, word: string)
    requires forall t :: t in a <==> t in b
    ensures Mentions(a, word) <==> Mentions(b, word)
  {
    if Mentions(a, word) {
      var i :| 0 <= i < |a| && Contains(Lower(a[i]), word);
      assert a[i] in b;
    }
    if Mentions(b, word) {
      var i :| 0 <= i < |b| && Contains(Lower(b[i]), word);
      assert b[i] in a;
    }
  }

  /** The keyword name CrossIndustryInvoice counts as invoice support. */
  lemma CrossIndustryInvoiceIsInvoice()
    ensures Mentions(["CrossIndustryInvoice"], "invoice")
  {
    var s := "CrossIndustryInvoice";
    var l := Lower(s);
    assert s[13] == 'I' && s[14] == 'n' && s[15] == 'v' && s[16] == 'o' && s[17] == 'i' && s[18] == 'c' && s[19] == 'e';
    assert l[13..20] == "invoice";
    ContainsAt(l, "invoice", 13);
    assert ["CrossIndustryInvoice"][0] == s;
  }

  // ---------------------------------------------------------------------------------------------
  // The card loop

  /** A later card with the same key replaces the earlier record: the map holds, under each
      key, the record of the last kept card with that key, and nothing else. */
  lemma CardsLastWins(cards: seq<Card>, pid: string)
    ensures UniqueKeys(SetAll(cards, TransformCard))
    ensures Lookup(SetAll(cards, TransformCard), pid) == LastSet(cards, TransformCard, pid)
  {
    SetAllLastWins(cards, TransformCard, pid);
  }

  /** The loop of `parsePeppolBusinessCardsXML` with its two counters. */
  method ParseCards(cards: seq<Card>) returns (businessData: Entries<string, CardData>, processedCount: nat, skippedCount: nat)
    ensures businessData == SetAll(cards, TransformCard)
    ensures processedCount == CountSome(cards, TransformCard) && processedCount + skippedCount == |cards|
  {
    businessData := [];
    processedCount := 0;
    skippedCount := 0;
    for i := 0 to |cards|
      invariant businessData == SetAll(cards[..i], TransformCard)
      invariant processedCount == CountSome(cards[..i], TransformCard) && processedCount + skippedCount == i
    {
      assert cards[..i + 1][..i] == cards[..i];
      match TransformCard(cards[i])
      case None =>
        skippedCount := skippedCount + 1;
      case Some((fullPid, data)) =>
        businessData := Upsert(businessData, fullPid, data);
        processedCount := processedCount + 1;
    }
    assert cards[..|cards|] == cards;
  }

  // ---------------------------------------------------------------------------------------------
  // The load

  const BatchSize: nat := 1000

  /** The ten values of one entry, in the INSERT's column order. */
  function CardColumns(entry: (string, CardData)): seq<Cell> {
    var (fullPid, d) := entry;
    [Str(fullPid), Str(d.schemeId), Str(d.endpointId), Flag(d.supportsInvoice), Flag(d.supportsCreditnote),
     Str(d.companyName), if d.countryCode.Some? then Str(d.countryCode.value) else Null,
     if d.registrationDate.Some? then Str(d.registrationDate.value) else Null,
     Str(d.rawDocumentTypes), JsonArray(d.documentTypes)]
  }

  /** `finalBuild` after parsing: no statements (the source throws) when the map is empty,
      otherwise one upsert per slice of 1000 entries, each row with ten placeholders. */
  method FinalBuild(businessData: Entries<string, CardData>) returns (r: Option<seq<(seq<seq<nat>>, seq<Cell>)>>)
    ensures r.None? <==> businessData == []
    ensures r.Some? ==> r.value == Statements(businessData, BatchSize, 10, CardColumns)
  {
    if |businessData| == 0 {
      return None;
    }
    var statements := SendAll(businessData, BatchSize, 10, CardColumns);
    return Some(statements);
  }

  /** Every entry binds ten values, the placeholders run `$1..$10n` in each statement, and the
      statements together send every entry once, in map order. */
  lemma FinalBuildAligned(batch: seq<(string, CardData)>)
    ensures |BatchValues(batch, CardColumns)| == 10 * |batch|
    ensures forall i, j :: 0 <= i < |batch| && 0 <= j < 10 ==>
      10 * i + j < |BatchValues(batch, CardColumns)| && BatchValues(batch, CardColumns)[10 * i + j] == CardColumns(batch[i])[j]
    ensures Flatten(Placeholders(|batch|, 10)) == seq(10 * |batch|, p requires 0 <= p < 10 * |batch| => p + 1)
  {
    ValuesLength(batch, 10, CardColumns);
    forall i, j | 0 <= i < |batch| && 0 <= j < 10
      ensures 10 * i + j < |BatchValues(batch, CardColumns)| && BatchValues(batch, CardColumns)[10 * i + j] == CardColumns(batch[i])[j]
    {
      ValuesAligned(batch, 10, CardColumns, i, j);
    }
    PlaceholdersConsecutive(|batch|, 10);
  }
}
