/**
 * The run driver of src/main.py: obtain an access token, fetch the featured
 * playlists, extract their ids, fetch the items of every playlist into a
 * dictionary keyed by playlist id, and save that dictionary if it is not empty.
 *
 * Every call into a collaborator (the token exchange, the two paginated
 * fetchers, the clock and the file write) is an outcome taken from an
 * `Environment`; what the collaborators do inside is not part of this model.
 */
module Driver {
  import opened PyValues

  datatype Option<+T> = None | Some(value: T)

  const TokenUrl: string := "https://accounts.spotify.com/api/token"
  const FeaturedPlaylistsUrl: string := "https://api.spotify.com/v1/browse/featured-playlists"
  const PlaylistItemsUrl: string := "https://api.spotify.com/v1/playlists"
  const PlaylistItemsFields: string :=
    "href,name,owner(!href,external_urls),items(added_at,track(name,href,album(name,href),artists(name,href))),"
    + "offset,limit,next,previous,total"

  /** The keyword arguments handed to every collaborator call. */
  datatype Credentials = Credentials(clientId: string, clientSecret: string, url: string)

  /**
   * What the outside world answers during one run. `playlist(i)` is the
   * outcome of the i-th playlist fetch; the fetches happen in id order, one
   * per id, so it is also the outcome for the i-th id.
   */
  datatype Environment = Environment(
    clientId: string,
    clientSecret: string,
    token: Call<Json>,
    catalog: Call<Json>,
    playlist: nat -> Call<Json>,
    timestamp: string,
    write: Call<()>)

  function Kwargs(env: Environment): Credentials {
    Credentials(env.clientId, env.clientSecret, TokenUrl)
  }

  /** Where an exception that nothing catches ends the run. */
  datatype Stage = AccessTokenLookup | CatalogFetch | IdExtraction

  /** The branch by which the run ends. */
  datatype Exit =
    | TokenRetrievalError     // the token step raised and was caught
    | NoAccessToken           // the token response was falsy or had no "access_token"
    | Crashed(stage: Stage)   // an uncaught exception ended the run
    | NoFeaturedPlaylists
    | NothingToSave
    | Saved(filename: string)
    | SaveFailed(filename: string)

  datatype CatalogRequest = CatalogRequest(baseUrl: string, accessToken: Json, kwargs: Credentials)

  datatype PlaylistRequest =
    PlaylistRequest(baseUrl: string, accessToken: Json, playlistId: Json, fields: string, kwargs: Credentials)

  /** The `playlists_items` dictionary: its entries and its key insertion order. */
  datatype PlaylistItems = PlaylistItems(entries: map<Json, Json>, order: seq<Json>)

  datatype WriteRequest = WriteRequest(path: string, items: PlaylistItems)

  /** What one run did: how it ended and which collaborator calls it made. */
  datatype Report = Report(
    exit: Exit,
    catalogRequest: Option<CatalogRequest>,
    playlistRequests: seq<PlaylistRequest>,
    write: Option<WriteRequest>)

  // ---------------------------------------------------------------------------
  // Step 1: the token gate

  datatype TokenCheck = GotToken(accessToken: Json) | RetrievalError | NoToken | LookupCrash

  /**
   * The token step: a raised exception or a TypeError from the `in` test is
   * caught ("Error during token retrieval"); a falsy response or one without
   * "access_token" stops the run ("Failed to obtain access token"); a response
   * that passes the test but is not a dict makes `token.get` raise, uncaught.
   */
  function CheckToken(token: Call<Json>): (c: TokenCheck)
    ensures c.GotToken? <==> token.Returned? && token.value.JObj? && "access_token" in token.value.fields
    ensures c.GotToken? ==> c.accessToken == token.value.fields["access_token"]
    ensures c.RetrievalError? <==>
      token.Raised? || token.value == JBool(true) || (token.value.JNum? && token.value.n != 0)
    ensures c.NoToken? <==>
      token.Returned? && (!Truthy(token.value) || Contains(token.value, "access_token") == Returned(false))
    ensures c.LookupCrash? <==>
      token.Returned? && (token.value.JArr? || token.value.JStr?) && Truthy(token.value)
      && Contains(token.value, "access_token") == Returned(true)
  {
    match token
    case Raised => RetrievalError
    case Returned(t) =>
      if !Truthy(t) then NoToken
      else match Contains(t, "access_token")
        case Raised => RetrievalError
        case Returned(found) =>
          if !found then NoToken
          else if t.JObj? then GotToken(t.fields["access_token"])
          else LookupCrash
  }

  // ---------------------------------------------------------------------------
  // Step 3: id extraction

  predicate HasId(entry: Json) {
    entry.JObj? && "id" in entry.fields
  }

  /** `[playlist["id"] for playlist in entries]`; None when some `playlist["id"]` raises. */
  function IdsOf(entries: seq<Json>): (r: Option<seq<Json>>)
    ensures r.Some? <==> forall i :: 0 <= i < |entries| ==> HasId(entries[i])
    ensures r.Some? ==> |r.value| == |entries|
    ensures r.Some? ==> forall i :: 0 <= i < |entries| ==> HasId(entries[i]) && r.value[i] == entries[i].fields["id"]
  {
    if entries == [] then Some([])
    else if !HasId(entries[0]) then None
    else match IdsOf(entries[1..])
      case None => None
      case Some(rest) => Some([entries[0].fields["id"]] + rest)
  }

  /**
   * The comprehension over the featured-playlists value, which the falsy
   * check before it guarantees to be truthy; iterating a truthy value that is
   * not a list of dicts holding "id" raises.
   */
  function ExtractIds(featured: Json): (r: Option<seq<Json>>)
    requires Truthy(featured)
    ensures r.Some? <==> featured.JArr? && forall i :: 0 <= i < |featured.items| ==> HasId(featured.items[i])
    ensures r.Some? ==> |r.value| == |featured.items|
    ensures r.Some? ==>
      forall i :: 0 <= i < |featured.items| ==> r.value[i] == featured.items[i].fields["id"]
  {
    if featured.JArr? then IdsOf(featured.items) else None
  }

  // ---------------------------------------------------------------------------
  // Step 4: the aggregation loop, specified as a fold over the ids

  /** The fetch for `id` returned truthy data and `id` can be a dictionary key. */
  predicate Stored(id: Json, outcome: Call<Json>) {
    outcome.Returned? && Truthy(outcome.value) && Hashable(id)
  }

  /** One turn of the loop: store the data under the id if the fetch returned something. */
  function Store(acc: PlaylistItems, id: Json, outcome: Call<Json>): PlaylistItems {
    if Stored(id, outcome) then
      PlaylistItems(acc.entries[id := outcome.value], if id in acc.entries then acc.order else acc.order + [id])
    else
      acc
  }

  /** The key order lists each key of the dictionary exactly once. */
  predicate WellFormed(items: PlaylistItems) {
    && |items.order| == |items.entries|
    && (forall i, j :: 0 <= i < j < |items.order| ==> items.order[i] != items.order[j])
    && (forall k :: k in items.entries ==> k in items.order)
    && (forall i :: 0 <= i < |items.order| ==> items.order[i] in items.entries)
  }

  /** The dictionary after the loop has processed `ids`. */
  function Collected(ids: seq<Json>, fetch: nat -> Call<Json>): PlaylistItems
    decreases |ids|
  {
    if ids == [] then PlaylistItems(map[], [])
    else
      var n := |ids| - 1;
      Store(Collected(ids[..n], fetch), ids[n], fetch(n))
  }

  /** The ids stored, in processing order. */
  function Kept(ids: seq<Json>, fetch: nat -> Call<Json>): seq<Json>
    decreases |ids|
  {
    if ids == [] then []
    else
      var n := |ids| - 1;
      Kept(ids[..n], fetch) + (if Stored(ids[n], fetch(n)) then [ids[n]] else [])
  }

  predicate Distinct(ids: seq<Json>) {
    forall i, j :: 0 <= i < j < |ids| ==> ids[i] != ids[j]
  }

  /**
   * The loop of lines 66-84: every id is fetched, in order, with the same
   * access token; a fetch that raises is skipped, and a truthy result is
   * stored under its id.
   */
  method CollectPlaylistItems(ids: seq<Json>, accessToken: Json, kwargs: Credentials, fetch: nat -> Call<Json>)
    returns (items: PlaylistItems, requests: seq<PlaylistRequest>)
    ensures items == Collected(ids, fetch)
    ensures |requests| == |ids|
    ensures forall i :: 0 <= i < |ids| ==>
      requests[i] == PlaylistRequest(PlaylistItemsUrl, accessToken, ids[i], PlaylistItemsFields, kwargs)
  {
    var playlistsItems: map<Json, Json> := map[];
    var order: seq<Json> := [];
    requests := [];
    for i := 0 to |ids|
      invariant PlaylistItems(playlistsItems, order) == Collected(ids[..i], fetch)
      invariant |requests| == i
      invariant forall j :: 0 <= j < i ==>
        requests[j] == PlaylistRequest(PlaylistItemsUrl, accessToken, ids[j], PlaylistItemsFields, kwargs)
    {
      var playlistId := ids[i];
      requests := requests + [PlaylistRequest(PlaylistItemsUrl, accessToken, playlistId, PlaylistItemsFields, kwargs)];
      match fetch(i) {
        case Raised =>
          // caught and logged; go on with the next id
        case Returned(playlistData) =>
          if Truthy(playlistData) && Hashable(playlistId) {
            if playlistId !in playlistsItems {
              order := order + [playlistId];
            }
            playlistsItems := playlistsItems[playlistId := playlistData];
          }
          // an unhashable id makes the assignment raise TypeError, which is caught
      }
      assert ids[..i + 1][..i] == ids[..i];
    }
    assert ids[..|ids|] == ids;
    items := PlaylistItems(playlistsItems, order);
  }

  // ---------------------------------------------------------------------------
  // Properties of the aggregation

  /** The dictionary and its key order never disagree. */
  lemma {:induction false} CollectedWellFormed(ids: seq<Json>, fetch: nat -> Call<Json>)
    ensures WellFormed(Collected(ids, fetch))
    decreases |ids|
  {
    if ids != [] {
      var n := |ids| - 1;
      CollectedWellFormed(ids[..n], fetch);
      StorePreservesWellFormed(Collected(ids[..n], fetch), ids[n], fetch(n));
    }
  }

  /** One turn of the loop keeps the key order in step with the dictionary. */
  lemma StorePreservesWellFormed(acc: PlaylistItems, id: Json, outcome: Call<Json>)
    requires WellFormed(acc)
    ensures WellFormed(Store(acc, id, outcome))
  {
  }

  lemma StoreKeys(acc: PlaylistItems, id: Json, outcome: Call<Json>, k: Json)
    ensures k in Store(acc, id, outcome).entries <==> k in acc.entries || (k == id && Stored(id, outcome))
  {
  }

  /** An id is a key of the result exactly when one of its fetches stored data. */
  lemma {:induction false} StoredIffPresent(ids: seq<Json>, fetch: nat -> Call<Json>, k: Json)
    ensures k in Collected(ids, fetch).entries <==>
      exists i :: 0 <= i < |ids| && ids[i] == k && Stored(k, fetch(i))
    decreases |ids|
  {
    if ids != [] {
      var n := |ids| - 1;
      var prefix := ids[..n];
      var acc := Collected(prefix, fetch);
      assert Collected(ids, fetch) == Store(acc, ids[n], fetch(n));
      StoreKeys(acc, ids[n], fetch(n), k);
      StoredIffPresent(prefix, fetch, k);
      if k in acc.entries {
        var i :| 0 <= i < n && prefix[i] == k && Stored(k, fetch(i));
        assert ids[i] == k && Stored(k, fetch(i));
      } else if k == ids[n] && Stored(k, fetch(n)) {
        assert ids[n] == k;
      } else {
        forall i | 0 <= i < |ids| && ids[i] == k
          ensures !Stored(k, fetch(i))
        {
          if i < n {
            assert prefix[i] == k;
          }
        }
      }
    }
  }

  /** The value under an id is the data of its last fetch that stored anything. */
  lemma {:induction false} LastStoredWins(ids: seq<Json>, fetch: nat -> Call<Json>, i: nat)
    requires i < |ids| && Stored(ids[i], fetch(i))
    requires forall j :: i < j < |ids| && ids[j] == ids[i] ==> !Stored(ids[j], fetch(j))
    ensures ids[i] in Collected(ids, fetch).entries
    ensures Collected(ids, fetch).entries[ids[i]] == fetch(i).value
    decreases |ids|
  {
    var n := |ids| - 1;
    var prefix := ids[..n];
    var acc := Collected(prefix, fetch);
    assert Collected(ids, fetch) == Store(acc, ids[n], fetch(n));
    if i < n {
      forall j | i < j < |prefix| && prefix[j] == prefix[i]
        ensures !Stored(prefix[j], fetch(j))
      {
        assert ids[j] == ids[i];
      }
      LastStoredWins(prefix, fetch, i);
      assert ids[n] != ids[i] || !Stored(ids[n], fetch(n));
    }
  }

  /** Nothing is collected exactly when no fetch stored anything. */
  lemma CollectedEmptyIff(ids: seq<Json>, fetch: nat -> Call<Json>)
    ensures |Collected(ids, fetch).entries| == 0 <==>
      forall i :: 0 <= i < |ids| ==> !Stored(ids[i], fetch(i))
  {
  }

  /** With distinct ids, the keys are the stored ids in processing order. */
  lemma {:induction false} DistinctIdsKeepOrder(ids: seq<Json>, fetch: nat -> Call<Json>)
    requires Distinct(ids)
    ensures Collected(ids, fetch).order == Kept(ids, fetch)
    decreases |ids|
  {
    if ids != [] {
      var n := |ids| - 1;
      DistinctIdsKeepOrder(ids[..n], fetch);
      StoredIffPresent(ids[..n], fetch, ids[n]);
    }
  }

  lemma {:induction false} KeptAllButOne(ids: seq<Json>, fetch: nat -> Call<Json>, m: nat, k: nat)
    requires m < |ids| && k <= |ids|
    requires !Stored(ids[m], fetch(m))
    requires forall i :: 0 <= i < |ids| && i != m ==> Stored(ids[i], fetch(i))
    ensures k <= m ==> Kept(ids[..k], fetch) == ids[..k]
    ensures m < k ==> Kept(ids[..k], fetch) == ids[..m] + ids[m + 1..k]
    decreases k
  {
    if k > 0 {
      KeptAllButOne(ids, fetch, m, k - 1);
      var prefix := ids[..k];
      assert prefix[..k - 1] == ids[..k - 1];
      assert Kept(prefix, fetch)
          == Kept(ids[..k - 1], fetch) + (if Stored(ids[k - 1], fetch(k - 1)) then [ids[k - 1]] else []);
      if k - 1 < m {
        assert ids[..k] == ids[..k - 1] + [ids[k - 1]];
      } else if k - 1 > m {
        assert ids[m + 1..k] == ids[m + 1..k - 1] + [ids[k - 1]];
      }
    }
  }

  /**
   * K distinct playlists of which only the m-th fails: the result holds the
   * other K-1 ids, in catalog order, and processing went on past the failure.
   */
  lemma OneFailedEntryOmitted(ids: seq<Json>, fetch: nat -> Call<Json>, m: nat)
    requires Distinct(ids) && m < |ids|
    requires !Stored(ids[m], fetch(m))
    requires forall i :: 0 <= i < |ids| && i != m ==> Stored(ids[i], fetch(i))
    ensures Collected(ids, fetch).order == ids[..m] + ids[m + 1..]
    ensures |Collected(ids, fetch).entries| == |ids| - 1
    ensures ids[m] !in Collected(ids, fetch).entries
  {
    DistinctIdsKeepOrder(ids, fetch);
    CollectedWellFormed(ids, fetch);
    KeptAllButOne(ids, fetch, m, |ids|);
    assert ids[..|ids|] == ids;
  }

  // ---------------------------------------------------------------------------
  // The whole run

  /** The ids the run reaches the aggregation loop with, if it reaches it. */
  function ReachedIds(env: Environment): Option<seq<Json>> {
    if CheckToken(env.token).GotToken? && env.catalog.Returned? && Truthy(env.catalog.value) then
      ExtractIds(env.catalog.value)
    else
      None
  }

  function OutputFileName(timestamp: string): string {
    "playlist_items_" + timestamp + ".json"
  }

  /** `main()`: each step runs only if the one before produced what it needs. */
  method RunMain(env: Environment) returns (r: Report)
    // step 1: the token gate decides how a run without a token ends
    ensures CheckToken(env.token).RetrievalError? <==> r.exit == TokenRetrievalError
    ensures CheckToken(env.token).NoToken? <==> r.exit == NoAccessToken
    ensures CheckToken(env.token).LookupCrash? <==> r.exit == Crashed(AccessTokenLookup)
    ensures !CheckToken(env.token).GotToken? ==>
      r.catalogRequest == None && r.playlistRequests == [] && r.write == None
    // step 2: the catalog is fetched once, with the token's access_token
    ensures CheckToken(env.token).GotToken? ==>
      r.catalogRequest == Some(CatalogRequest(FeaturedPlaylistsUrl, CheckToken(env.token).accessToken, Kwargs(env)))
    ensures r.exit == Crashed(CatalogFetch) <==> CheckToken(env.token).GotToken? && env.catalog.Raised?
    ensures r.exit == NoFeaturedPlaylists <==>
      CheckToken(env.token).GotToken? && env.catalog.Returned? && !Truthy(env.catalog.value)
    ensures r.exit == NoFeaturedPlaylists ==> r.playlistRequests == [] && r.write == None
    // step 3: extraction raising ends the run
    ensures r.exit == Crashed(IdExtraction) <==>
      CheckToken(env.token).GotToken? && env.catalog.Returned? && Truthy(env.catalog.value)
      && ExtractIds(env.catalog.value).None?
    // steps 4 and 5 happen only with ids in hand
    ensures ReachedIds(env).None? ==> r.playlistRequests == [] && r.write == None
    ensures ReachedIds(env).Some? ==>
      var ids := ReachedIds(env).value;
      var items := Collected(ids, env.playlist);
      && |r.playlistRequests| == |ids|
      && (forall i :: 0 <= i < |ids| ==>
            r.playlistRequests[i]
            == PlaylistRequest(PlaylistItemsUrl, CheckToken(env.token).accessToken, ids[i], PlaylistItemsFields, Kwargs(env)))
      && (r.write.Some? <==> |items.entries| > 0)
      && (r.write.Some? ==> r.write.value == WriteRequest("./" + OutputFileName(env.timestamp), items))
      && r.exit == (if |items.entries| == 0 then NothingToSave
                    else if env.write.Returned? then Saved(OutputFileName(env.timestamp))
                    else SaveFailed(OutputFileName(env.timestamp)))
  {
    var kwargs := Kwargs(env);

    // Step 1: getting an access token
    var accessToken: Json;
    match CheckToken(env.token) {
      case RetrievalError => return Report(TokenRetrievalError, None, [], None);
      case NoToken => return Report(NoAccessToken, None, [], None);
      case LookupCrash => return Report(Crashed(AccessTokenLookup), None, [], None);
      case GotToken(t) => accessToken := t;
    }

    // Step 2: the featured playlists
    var catalogRequest := CatalogRequest(FeaturedPlaylistsUrl, accessToken, kwargs);
    var featuredPlaylists: Json;
    match env.catalog {
      case Raised => return Report(Crashed(CatalogFetch), Some(catalogRequest), [], None);
      case Returned(v) => featuredPlaylists := v;
    }
    if !Truthy(featuredPlaylists) {
      return Report(NoFeaturedPlaylists, Some(catalogRequest), [], None);
    }

    // Step 3: the playlist ids
    var playlistsIds: seq<Json>;
    match ExtractIds(featuredPlaylists) {
      case None => return Report(Crashed(IdExtraction), Some(catalogRequest), [], None);
      case Some(ids) => playlistsIds := ids;
    }

    // Step 4: the items of each playlist
    var playlistsItems, requests := CollectPlaylistItems(playlistsIds, accessToken, kwargs, env.playlist);

    // Step 5: save what was collected
    if |playlistsItems.entries| > 0 {
      var filename := OutputFileName(env.timestamp);
      var write := WriteRequest("./" + filename, playlistsItems);
      var exit := if env.write.Returned? then Saved(filename) else SaveFailed(filename);
      r := Report(exit, Some(catalogRequest), requests, Some(write));
    } else {
      r := Report(NothingToSave, Some(catalogRequest), requests, None);
    }
  }
}
