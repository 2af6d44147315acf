/**
 * The server's artist-info cache (the `artist_info_cache` table) and the
 * `/api/artist-info` handler that resolves an artist name through it.
 * Storage failures and the summarizer are injected as parameters.
 */
module ArtistInfoCache {
  import opened Wrappers
  import opened Strings

  /** One row of the table; its primary key, artist_name, is the map key. */
  datatype Row = Row(infoText: string, createdAt: int, updatedAt: int)

  /** The table: exact-case artist name to row. */
  type Table = map<string, Row>

  /** The lookup's `LOWER(artist_name) = LOWER($1)` comparison. */
  predicate SameArtist(a: string, b: string) {
    Lower(a) == Lower(b)
  }

  /** Some row answers a case-insensitive lookup of `name`. */
  ghost predicate HasMatch(rows: Table, name: string) {
    exists k :: k in rows && SameArtist(k, name)
  }

  /** No two stored names are equal after lower-casing. */
  ghost predicate CaseUnique(rows: Table) {
    forall a, b :: a in rows && b in rows && SameArtist(a, b) ==> a == b
  }

  /** Every stored summary is non-empty. */
  ghost predicate TextsNonEmpty(rows: Table) {
    forall k :: k in rows ==> rows[k].infoText != ""
  }

  /** What the handler keeps true of the table across requests. */
  ghost predicate CacheInvariant(rows: Table) {
    CaseUnique(rows) && TextsNonEmpty(rows)
  }

  /** The text a case-insensitive lookup finds (any matching row when several match). */
  ghost function Cached(rows: Table, name: string): (r: Option<string>)
    ensures r.Some? <==> HasMatch(rows, name)
    ensures r.Some? ==> exists k :: k in rows && SameArtist(k, name) && rows[k].infoText == r.value
  {
    if HasMatch(rows, name) then
      var k :| k in rows && SameArtist(k, name); Some(rows[k].infoText)
    else None
  }

  /**
   * The table after the insert-or-update of lines 171-174: the conflict
   * target is the exact-case key; created_at is set on insert only and
   * updated_at on every write.
   */
  function Upserted(rows: Table, name: string, text: string, now: int): (r: Table)
    ensures r.Keys == rows.Keys + {name}
    ensures r[name].infoText == text && r[name].updatedAt == now
    ensures name in rows ==> r[name].createdAt == rows[name].createdAt
    ensures name !in rows ==> r[name].createdAt == now
    ensures forall k :: k in rows && k != name ==> r[k] == rows[k]
  {
    var created := if name in rows then rows[name].createdAt else now;
    rows[name := Row(text, created, now)]
  }

  /** The table behind the connection pool. */
  class ArtistInfoStore {
    var rows: Table

    constructor (initial: Table)
      ensures rows == initial
    {
      rows := initial;
    }

    /**
     * getCachedArtistInfo: the text of some row whose lower-cased name equals
     * the lower-cased query; nothing when no row matches or when the storage
     * fails (the error is swallowed).
     */
    method Lookup(name: string, fails: bool) returns (r: Option<string>)
      ensures fails ==> r == None
      ensures !fails ==> (r.Some? <==> HasMatch(rows, name))
      ensures r.Some? ==> exists k :: k in rows && SameArtist(k, name) && rows[k].infoText == r.value
      ensures CaseUnique(rows) && !fails ==> r == Cached(rows, name)
    {
      if fails {
        return None;
      }
      if k :| k in rows && SameArtist(k, name) {
        r := Some(rows[k].infoText);
      } else {
        r := None;
      }
    }

    /**
     * cacheArtistInfo: insert or overwrite the exact-case row; a storage
     * failure leaves the table as it was and is not raised.
     */
    method Upsert(name: string, text: string, now: int, fails: bool)
      modifies this
      ensures rows == if fails then old(rows) else Upserted(old(rows), name, text, now)
    {
      if !fails {
        rows := Upserted(rows, name, text, now);
      }
    }
  }

  /** What the summarizer (the generative-text call) yields for one prompt. */
  datatype Summary =
    | Text(text: string)  // a candidate part with text (possibly empty)
    | NoText              // a response without text: `text` is undefined
    | Fail                // the call threw

  /** The handler's JSON answers. */
  datatype Response =
    | BadRequest(error: string)
    | Answer(text: Option<string>, cached: bool)
    | ServerError(error: string)
  {
    function Status(): nat {
      match this
      case BadRequest(_) => 400
      case Answer(_, _) => 200
      case ServerError(_) => 500
    }
  }

  /** The calls a request makes, in order, with what the cache read returned. */
  datatype Effect =
    | CacheRead(name: string, found: Option<string>)
    | Summarize(prompt: string)
    | CacheWrite(name: string, text: string)

  const PromptPrefix: string := "Give a one sentence summary of the musical artist "

  /** The prompt sent on a miss: the fixed sentence followed by the name exactly as given. */
  function Prompt(name: string): string {
    PromptPrefix + name
  }

  /** The prompt determines the name: different spellings are summarized separately. */
  lemma PromptDeterminesName(a: string, b: string)
    requires Prompt(a) == Prompt(b)
    ensures a == b
  {
    assert a == Prompt(a)[|PromptPrefix|..];
    assert b == Prompt(b)[|PromptPrefix|..];
  }

  /** The `text` field the handler forwards from the summarizer's result. */
  function SummaryText(summary: Summary): Option<string> {
    if summary.Text? then Some(summary.text) else None
  }

  /** The summary is written to the cache only when its forwarded text is truthy. */
  predicate Cacheable(summary: Summary) {
    Truthy(SummaryText(summary))
  }

  /**
   * POST /api/artist-info. `artistName` is the request body's field;
   * `lookupFails`/`writeFails` say whether the storage errors on the read
   * or the write; `summary` is what the summarizer yields if it is called;
   * `now` is CURRENT_TIMESTAMP.
   */
  method HandleArtistInfo(store: ArtistInfoStore, artistName: Option<string>, lookupFails: bool,
                          summary: Summary, writeFails: bool, now: int)
    returns (resp: Response, trace: seq<Effect>)
    modifies store
    // A missing or empty name: 400, and nothing is read, called or written.
    ensures !Truthy(artistName) ==>
      resp == BadRequest("Missing artistName") && trace == [] && store.rows == old(store.rows)
    // Otherwise the first call is the case-insensitive cache read.
    ensures Truthy(artistName) ==>
      |trace| >= 1 && trace[0].CacheRead? && trace[0].name == artistName.value
    ensures Truthy(artistName) && trace[0].found.Some? ==>
      !lookupFails && exists k :: k in old(store.rows) && SameArtist(k, artistName.value)
                                  && old(store.rows)[k].infoText == trace[0].found.value
    ensures Truthy(artistName) && trace[0].found.None? ==>
      lookupFails || !HasMatch(old(store.rows), artistName.value)
    ensures Truthy(artistName) && !lookupFails && CaseUnique(old(store.rows)) ==>
      trace[0].found == Cached(old(store.rows), artistName.value)
    // A hit: the cached text, no summarizer call, no write.
    ensures Truthy(artistName) && Truthy(trace[0].found) ==>
      resp == Answer(trace[0].found, true) && |trace| == 1 && store.rows == old(store.rows)
    // A miss: exactly one summarizer call, with the prompt for the name as given.
    ensures Truthy(artistName) && !Truthy(trace[0].found) ==>
      |trace| >= 2 && trace[1] == Summarize(Prompt(artistName.value))
    ensures Truthy(artistName) && !Truthy(trace[0].found) && summary.Fail? ==>
      resp == ServerError("Failed to generate artist info") && |trace| == 2
      && store.rows == old(store.rows)
    ensures Truthy(artistName) && !Truthy(trace[0].found) && !summary.Fail? ==>
      resp == Answer(SummaryText(summary), false)
    ensures Truthy(artistName) && !Truthy(trace[0].found) && Cacheable(summary) ==>
      trace == trace[..2] + [CacheWrite(artistName.value, summary.text)]
      && store.rows == (if writeFails then old(store.rows)
                        else Upserted(old(store.rows), artistName.value, summary.text, now))
    ensures Truthy(artistName) && !Truthy(trace[0].found) && !Cacheable(summary) ==>
      |trace| == 2 && store.rows == old(store.rows)
    // The status: 400 for a missing name, 500 for a summarizer failure, 200 otherwise.
    ensures resp.Status() == 400 <==> !Truthy(artistName)
    ensures resp.Status() == 500 <==>
      Truthy(artistName) && !Truthy(trace[0].found) && summary.Fail?
    // Requests whose cache read succeeds keep the table free of
    // case-insensitive duplicates and of empty texts.
    ensures CacheInvariant(old(store.rows)) && !lookupFails ==> CacheInvariant(store.rows)
  {
    if !Truthy(artistName) {
      return BadRequest("Missing artistName"), [];
    }
    var name := artistName.value;
    var cachedInfo := store.Lookup(name, lookupFails);
    trace := [CacheRead(name, cachedInfo)];
    if Truthy(cachedInfo) {
      return Answer(cachedInfo, true), trace;
    }
    trace := trace + [Summarize(Prompt(name))];
    if summary.Fail? {
      return ServerError("Failed to generate artist info"), trace;
    }
    if Cacheable(summary) {
      if CacheInvariant(store.rows) && !lookupFails {
        WriteAfterMissKeepsInvariant(store.rows, name, summary.text, now);
      }
      store.Upsert(name, summary.text, now, writeFails);
      trace := trace + [CacheWrite(name, summary.text)];
    }
    resp := Answer(SummaryText(summary), false);
  }

  /**
   * A write made after a case-insensitive miss, with non-empty text, keeps
   * the cache invariant: the new key cannot collide with a stored one.
   */
  lemma WriteAfterMissKeepsInvariant(rows: Table, name: string, text: string, now: int)
    requires CacheInvariant(rows)
    requires !HasMatch(rows, name)
    requires text != ""
    ensures CacheInvariant(Upserted(rows, name, text, now))
  {
    assert forall k :: k in rows ==> !SameArtist(k, name);
  }

  /**
   * On a table without case-insensitive duplicates, an upsert of a name that
   * is stored exactly or not at all is seen by every spelling of that name
   * that differs only in case: the last write wins.
   */
  lemma LookupAfterUpsert(rows: Table, name: string, text: string, now: int, query: string)
    requires CaseUnique(rows)
    requires name in rows || !HasMatch(rows, name)
    requires SameArtist(query, name)
    ensures CaseUnique(Upserted(rows, name, text, now))
    ensures Cached(Upserted(rows, name, text, now), query) == Some(text)
  {
    var r := Upserted(rows, name, text, now);
    assert forall k :: k in rows && k != name ==> !SameArtist(k, name);
    assert name in r && SameArtist(name, query);
  }

  /**
   * The store alone does not enforce case-insensitive uniqueness: its
   * conflict target is the exact-case key, so upserting "low" beside "Low"
   * adds a second row that the same lookup matches.
   */
  lemma UpsertKeepsCaseVariants()
    ensures var rows := map["Low" := Row("a", 0, 0)];
            CaseUnique(rows) && !CaseUnique(Upserted(rows, "low", "b", 1))
  {
    var rows := map["Low" := Row("a", 0, 0)];
    var r := Upserted(rows, "low", "b", 1);
    LowerIgnoresCase("Low", "low");
    assert "Low" in r && "low" in r && SameArtist("Low", "low") && "Low" != "low";
  }

  /**
   * Two requests for one artist spelled with different case, "Radiohead"
   * then "radiohead", on an empty table: the first misses and stores the
   * summary, the second hits that row and makes no summarizer call.
   */
  method CaseInsensitiveHitScenario(text: string) returns (first: Response, second: Response, secondCalls: seq<Effect>)
    requires text != ""
    ensures first == Answer(Some(text), false)
    ensures second == Answer(Some(text), true)
    ensures secondCalls == [CacheRead("radiohead", Some(text))]
  {
    LowerIgnoresCase("Radiohead", "radiohead");
    assert SameArtist("Radiohead", "radiohead");
    var store := new ArtistInfoStore(map[]);
    var firstCalls;
    first, firstCalls := HandleArtistInfo(store, Some("Radiohead"), false, Text(text), false, 1);
    assert firstCalls[0].found == None;
    assert store.rows == map["Radiohead" := Row(text, 1, 1)];
    assert CaseUnique(store.rows);
    assert HasMatch(store.rows, "radiohead");
    assert Cached(store.rows, "radiohead") == Some(text);
    second, secondCalls := HandleArtistInfo(store, Some("radiohead"), false, Text("unused"), false, 2);
  }

  /**
   * Fail-open reads weaken the invariant: when the read fails, the handler
   * regenerates and writes the name as spelled, beside a case variant that
   * is already stored.
   */
  method FailedReadAddsCaseVariant() returns (resp: Response, after: Table)
    ensures resp == Answer(Some("b"), false)
    ensures !CaseUnique(after)
  {
    LowerIgnoresCase("Low", "low");
    var store := new ArtistInfoStore(map["Low" := Row("a", 0, 0)]);
    var calls;
    resp, calls := HandleArtistInfo(store, Some("low"), true, Text("b"), false, 1);
    after := store.rows;
    assert "Low" in after && "low" in after && SameArtist("Low", "low");
  }
}
