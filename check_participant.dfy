/** The `POST /api/check-participant` route: it validates the request, refreshes the cached
    directory index when it is missing or older than five minutes, tries the exact database lookup
    and falls back to the directory's alternative schemes. */
module CheckParticipantRoute {
  import opened Text
  import opened PeppolIds
  import opened ParticipantUtils

  /** `CACHE_DURATION`, five minutes in milliseconds. */
  const CacheDuration: int := 5 * 60 * 1000

  /** The JSON body; a field that is absent or falsy is the empty string. */
  datatype Request = Request(documentType: string, schemeId: string, participantId: string)

  /** The HTTP answer: a 400 for missing fields, else the search's response as JSON. */
  datatype Reply = BadRequest | Json(response: Response)

  predicate ValidRequest(req: Request) {
    req.schemeId != "" && req.participantId != ""
  }

  /** The refresh rule: reload when nothing is cached or the cache is strictly older than the
      duration. */
  predicate NeedsReload(cache: Option<Index>, lastCacheTime: int, now: int) {
    cache.None? || now - lastCacheTime > CacheDuration
  }

  /** The cache and its timestamp after the refresh step of a request at `now`, with `rows` the
      directory as it reads at that moment. */
  function CacheAfter(cache: Option<Index>, lastCacheTime: int, now: int, rows: seq<string>): (r: (Option<Index>, int))
    ensures r.0.Some?
  {
    if NeedsReload(cache, lastCacheTime, now) then (Some(DirectoryIndex(rows)), now) else (cache, lastCacheTime)
  }

  lemma FullPidHasColon(scheme: string, id: string)
    ensures Contains(FullPid(scheme, id), ":")
  {
    assert FullPid(scheme, id)[|scheme|..|scheme| + 1] == ":";
    ContainsAt(FullPid(scheme, id), ":", |scheme|);
  }

  /** The two stages in order: the exact `scheme:id` lookup, and only when it misses the
      alternative schemes of the identifier in the cached index. */
  function Answer(req: Request, store: Store, cards: Option<string>, index: Index): Reply
    requires ValidRequest(req)
  {
    var fullPid := FullPid(req.schemeId, req.participantId);
    FullPidHasColon(req.schemeId, req.participantId);
    DatabaseSearchSpec(store, fullPid, req.documentType, cards);
    var direct := DatabaseSearch(store, fullPid, req.documentType, cards);
    if direct.found then Json(direct.response.value)
    else Json(AlternativeSearch(req.participantId, req.documentType, index).response.value)
  }

  /** A database hit answers the request directly, whatever the directory holds. */
  lemma DirectHitWins(req: Request, store: Store, cards: Option<string>, index1: Index, index2: Index)
    requires ValidRequest(req) && store.Some? && FullPid(req.schemeId, req.participantId) in store.value
    ensures Answer(req, store, cards, index1) == Answer(req, store, cards, index2)
    ensures Answer(req, store, cards, index1).response.matchType == Direct
    ensures Answer(req, store, cards, index1).response.alternativeSchemes == []
  {
    FullPidHasColon(req.schemeId, req.participantId);
    DatabaseSearchSpec(store, FullPid(req.schemeId, req.participantId), req.documentType, cards);
  }

  /** A miss answers with the alternative search, found or not, and never claims support. */
  lemma MissFallsBack(req: Request, store: Store, cards: Option<string>, index: Index)
    requires ValidRequest(req) && !(store.Some? && FullPid(req.schemeId, req.participantId) in store.value)
    ensures Answer(req, store, cards, index) == Json(AlternativeSearch(req.participantId, req.documentType, index).response.value)
    ensures Answer(req, store, cards, index).response.matchType != Direct
    ensures Answer(req, store, cards, index).response.supportsDocumentType == Some(false)
  {
    FullPidHasColon(req.schemeId, req.participantId);
    DatabaseSearchSpec(store, FullPid(req.schemeId, req.participantId), req.documentType, cards);
    AlternativeSearchShape(req.participantId, req.documentType, index);
  }

  /** Whatever the route answers, each alternative it offers is a directory row whose identifier
      matches the requested one. */
  lemma AnswerAlternativesMatch(req: Request, store: Store, cards: Option<string>, rows: seq<string>, a: AltScheme)
    requires ValidRequest(req) && a in Answer(req, store, cards, DirectoryIndex(rows)).response.alternativeSchemes
    ensures exists i :: 0 <= i < |rows| && rows[i] == a.fullId && ParseDirectoryId(rows[i]) == Some((a.scheme, a.participantId))
    ensures IsMatch(a.participantId, req.participantId)
  {
    if store.Some? && FullPid(req.schemeId, req.participantId) in store.value {
      DirectHitWins(req, store, cards, DirectoryIndex(rows), DirectoryIndex(rows));
    } else {
      MissFallsBack(req, store, cards, DirectoryIndex(rows));
      AlternativeSearchSound(rows, req.participantId, req.documentType, a);
    }
  }

  /** A cache loaded at `t` is served unchanged to every request up to `t + CacheDuration`, however
      the directory changes meanwhile, and replaced by the current directory after that. */
  lemma CacheWindow(rows: seq<string>, t: int, now: int, later: seq<string>)
    ensures now - t <= CacheDuration ==> CacheAfter(Some(DirectoryIndex(rows)), t, now, later) == (Some(DirectoryIndex(rows)), t)
    ensures now - t > CacheDuration ==> CacheAfter(Some(DirectoryIndex(rows)), t, now, later) == (Some(DirectoryIndex(later)), now)
  {
  }

  /** The first request loads the directory, whatever the clock says. */
  lemma FirstRequestLoads(lastCacheTime: int, now: int, rows: seq<string>)
    ensures CacheAfter(None, lastCacheTime, now, rows) == (Some(DirectoryIndex(rows)), now)
  {
  }

  /** The module-level state of the route: whether the database handle was opened, the cached
      directory index and the time it was loaded. */
  class CheckParticipant {
    var dbOpen: bool
    var cache: Option<Index>
    var lastCacheTime: int

    constructor ()
      ensures !dbOpen && cache == None && lastCacheTime == 0
    {
      dbOpen := false;
      cache := None;
      lastCacheTime := 0;
    }

    /** `POST`: `rows` is the directory file as it reads at `now`, `store` the database and
        `cards` the business-card export. */
    method Post(req: Request, now: int, rows: seq<string>, store: Store, cards: Option<string>) returns (reply: Reply)
      modifies this
      ensures dbOpen
      ensures !ValidRequest(req) ==> reply == BadRequest && cache == old(cache) && lastCacheTime == old(lastCacheTime)
      ensures ValidRequest(req) ==>
                (cache, lastCacheTime) == CacheAfter(old(cache), old(lastCacheTime), now, rows)
                && reply == Answer(req, store, cards, cache.value)
    {
      dbOpen := true;
      if req.schemeId == "" || req.participantId == "" {
        return BadRequest;
      }
      var fullPid := FullPid(req.schemeId, req.participantId);
      if cache.None? || now - lastCacheTime > CacheDuration {
        var loaded := LoadParticipantList(rows);
        cache := Some(loaded);
        lastCacheTime := now;
      }
      FullPidHasColon(req.schemeId, req.participantId);
      var result := SearchInDatabase(store, fullPid, req.documentType, cards);
      if result.found {
        DatabaseSearchSpec(store, fullPid, req.documentType, cards);
        return Json(result.response.value);
      }
      result := SearchAlternativeSchemes(req.participantId, req.documentType, cache.value);
      AlternativeSearchShape(req.participantId, req.documentType, cache.value);
      reply := Json(result.response.value);
    }
  }
}
