/** The in-memory participant store read from the bundled JSON file: a lazily loaded record list,
    an index of the records by lower-cased endpoint id, and the lookups over both. */
module JsonDatabase {
  import opened Text
  import opened PeppolIds

  /** A participant record of the JSON file, with the fields the lookups read. */
  datatype Record = Record(fullPid: string, schemeId: string, endpointId: string, companyName: string)

  type EndpointIndex = map<string, seq<Record>>

  /** `endpointIndex[key] || []`. */
  function BucketOf(index: EndpointIndex, key: string): seq<Record> {
    if key in index then index[key] else []
  }

  /** The records under `key`, in data order. */
  function WithKey(data: seq<Record>, key: string): (r: seq<Record>)
    ensures forall x :: x in r ==> x in data && Lower(x.endpointId) == key
  {
    if data == [] then []
    else WithKey(data[..|data| - 1], key) + if Lower(data[|data| - 1].endpointId) == key then [data[|data| - 1]] else []
  }

  /** The index `buildIndex` builds: each record appended to the bucket of its lower-cased
      endpoint id, in data order. */
  function EndpointIndexOf(data: seq<Record>): EndpointIndex {
    if data == [] then map[]
    else
      var index := EndpointIndexOf(data[..|data| - 1]);
      var p := data[|data| - 1];
      var key := Lower(p.endpointId);
      index[key := BucketOf(index, key) + [p]]
  }

  /** Each bucket holds exactly the records with its key, in data order; so every record lands in
      the one bucket of its own key, and no bucket is empty. */
  lemma {:induction false} IndexBuckets(data: seq<Record>, key: string)
    ensures BucketOf(EndpointIndexOf(data), key) == WithKey(data, key)
    ensures key in EndpointIndexOf(data) ==> WithKey(data, key) != []
  {
    if data != [] {
      IndexBuckets(data[..|data| - 1], key);
    }
  }

  /** A record is in the bucket of a key exactly when the key is its lower-cased endpoint id. */
  lemma RecordBucket(data: seq<Record>, i: int, key: string)
    requires 0 <= i < |data|
    ensures data[i] in BucketOf(EndpointIndexOf(data), key) <==> Lower(data[i].endpointId) == key
  {
    IndexBuckets(data, key);
    if Lower(data[i].endpointId) == key {
      WithKeyHas(data, i);
    }
  }

  lemma {:induction false} WithKeyHas(data: seq<Record>, i: int)
    requires 0 <= i < |data|
    ensures data[i] in WithKey(data, Lower(data[i].endpointId))
  {
    if i < |data| - 1 {
      WithKeyHas(data[..|data| - 1], i);
    }
  }

  /** `data.find(p => p.full_pid === fullPid)`. */
  function FindFirst(data: seq<Record>, fullPid: string): (r: Option<Record>)
    ensures r.Some? ==> exists i :: 0 <= i < |data| && data[i] == r.value && r.value.fullPid == fullPid
                                    && forall j :: 0 <= j < i ==> data[j].fullPid != fullPid
    ensures r.None? ==> forall i :: 0 <= i < |data| ==> data[i].fullPid != fullPid
  {
    if data == [] then None
    else if data[0].fullPid == fullPid then Some(data[0])
    else
      var r := FindFirst(data[1..], fullPid);
      assert r.Some? ==> exists i :: 0 <= i < |data[1..]| && data[1..][i] == r.value && r.value.fullPid == fullPid
                                    && forall j :: 0 <= j < i ==> data[1..][j].fullPid != fullPid;
      if r.Some? then
        var i :| 0 <= i < |data[1..]| && data[1..][i] == r.value && r.value.fullPid == fullPid
                 && forall j :: 0 <= j < i ==> data[1..][j].fullPid != fullPid;
        assert data[i + 1] == r.value;
        assert forall j :: 0 <= j < i + 1 ==> data[j].fullPid != fullPid by {
          forall j | 0 <= j < i + 1 ensures data[j].fullPid != fullPid {
            if j > 0 {
              assert data[j] == data[1..][j - 1];
            }
          }
        }
        r
      else
        assert forall i :: 0 <= i < |data| ==> data[i].fullPid != fullPid by {
          forall i | 0 <= i < |data| ensures data[i].fullPid != fullPid {
            if i > 0 {
              assert data[i] == data[1..][i - 1];
            }
          }
        }
        r
  }

  /** What `loadJSONData` leaves in the cache: the cached records while there are any, otherwise
      the imported ones, otherwise nothing. */
  function LoadedData(cached: seq<Record>, imported: Option<seq<Record>>): seq<Record> {
    if cached != [] then cached
    else if imported.Some? then imported.value
    else []
  }

  /** The module-level `participantsData` cache and `loadJSONData`. */
  class DataLoader {
    var participantsData: seq<Record>

    constructor ()
      ensures participantsData == []
    {
      participantsData := [];
    }

    /** `loadJSONData`: while the cache is empty, import the file again; `imported` is the
        import's `default` export, `None` when the import throws or exports nothing. */
    method LoadJSONData(imported: Option<seq<Record>>) returns (data: seq<Record>)
      modifies this
      ensures old(participantsData) != [] ==> participantsData == old(participantsData)
      ensures old(participantsData) == [] ==> participantsData == (if imported.Some? then imported.value else [])
      ensures participantsData == LoadedData(old(participantsData), imported)
      ensures data == participantsData
    {
      if |participantsData| == 0 {
        if imported.Some? {
          participantsData := imported.value;
        } else {
          participantsData := [];
        }
      }
      data := participantsData;
    }
  }

  /** `JSONDatabase`. */
  class JSONDatabase {
    var data: seq<Record>
    var endpointIndex: EndpointIndex
    var initialized: bool
    const loader: DataLoader

    /** Once initialised, the index is the one of the data. */
    predicate Valid()
      reads this
    {
      initialized ==> endpointIndex == EndpointIndexOf(data)
    }

    constructor (loader: DataLoader)
      ensures data == [] && endpointIndex == map[] && !initialized && this.loader == loader && Valid()
    {
      data := [];
      endpointIndex := map[];
      initialized := false;
      this.loader := loader;
    }

    /** `buildIndex`: reset the index, then append each record to its key's bucket. */
    method BuildIndex()
      modifies this
      ensures endpointIndex == EndpointIndexOf(data)
      ensures data == old(data) && initialized == old(initialized)
    {
      endpointIndex := map[];
      for i := 0 to |data|
        invariant data == old(data) && initialized == old(initialized)
        invariant endpointIndex == EndpointIndexOf(data[..i])
      {
        assert data[..i + 1][..i] == data[..i];
        var endpointKey := Lower(data[i].endpointId);
        if endpointKey !in endpointIndex {
          endpointIndex := endpointIndex[endpointKey := []];
        }
        endpointIndex := endpointIndex[endpointKey := endpointIndex[endpointKey] + [data[i]]];
      }
      assert data[..|data|] == data;
    }

    /** `initialize`: load and index once; later calls change nothing. */
    method Initialize(imported: Option<seq<Record>>)
      requires Valid()
      modifies this, loader
      ensures Valid() && initialized
      ensures old(initialized) ==> data == old(data) && endpointIndex == old(endpointIndex)
                                   && loader.participantsData == old(loader.participantsData)
      ensures !old(initialized) ==> data == loader.participantsData
                                    && data == LoadedData(old(loader.participantsData), imported)
    {
      if !initialized {
        data := loader.LoadJSONData(imported);
        BuildIndex();
        initialized := true;
      }
    }

    /** `findByFullPid`. */
    method FindByFullPid(fullPid: string, imported: Option<seq<Record>>) returns (r: Option<Record>)
      requires Valid()
      modifies this, loader
      ensures Valid() && initialized && r == FindFirst(data, fullPid)
      ensures old(initialized) ==> data == old(data)
      ensures !old(initialized) ==> data == LoadedData(old(loader.participantsData), imported)
    {
      Initialize(imported);
      r := FindFirst(data, fullPid);
    }

    /** `findByEndpointId`: case-insensitive, `[]` for an unknown key. */
    method FindByEndpointId(endpointId: string, imported: Option<seq<Record>>) returns (r: seq<Record>)
      requires Valid()
      modifies this, loader
      ensures Valid() && initialized && r == WithKey(data, Lower(endpointId))
      ensures old(initialized) ==> data == old(data)
      ensures !old(initialized) ==> data == LoadedData(old(loader.participantsData), imported)
    {
      Initialize(imported);
      var key := Lower(endpointId);
      IndexBuckets(data, key);
      r := if key in endpointIndex then endpointIndex[key] else [];
    }

    /** `findBySchemeAndEndpoint`: the full-id lookup of `scheme:endpoint`. */
    method FindBySchemeAndEndpoint(schemeId: string, endpointId: string, imported: Option<seq<Record>>)
      returns (r: Option<Record>)
      requires Valid()
      modifies this, loader
      ensures Valid() && initialized && r == FindFirst(data, FullPid(schemeId, endpointId))
      ensures old(initialized) ==> data == old(data)
      ensures !old(initialized) ==> data == LoadedData(old(loader.participantsData), imported)
    {
      r := FindByFullPid(FullPid(schemeId, endpointId), imported);
    }

    /** `getAllData`. */
    method GetAllData(imported: Option<seq<Record>>) returns (r: seq<Record>)
      requires Valid()
      modifies this, loader
      ensures Valid() && initialized && r == data
      ensures old(initialized) ==> data == old(data)
      ensures !old(initialized) ==> data == LoadedData(old(loader.participantsData), imported)
    {
      Initialize(imported);
      r := data;
    }
  }

  /** The module-level `jsonDB` singleton. */
  class Singleton {
    var jsonDB: JSONDatabase?

    constructor ()
      ensures jsonDB == null
    {
      jsonDB := null;
    }

    /** `getJSONDatabase`: create the database on the first call, return that same one ever
        after. */
    method GetJSONDatabase(loader: DataLoader) returns (db: JSONDatabase)
      modifies this
      ensures old(jsonDB) != null ==> db == old(jsonDB)
      ensures old(jsonDB) == null ==> fresh(db) && !db.initialized
      ensures jsonDB == db
    {
      if jsonDB == null {
        jsonDB := new JSONDatabase(loader);
      }
      db := jsonDB;
    }
  }
}
