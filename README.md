# Featured-playlist harvest: the run driver

This project models `main()` of `src/main.py`. The function runs one harvest in five steps:

1. Get an access token from the token endpoint.
2. Fetch the featured playlists with that token.
3. Extract the playlist ids.
4. Fetch the items of every playlist, in catalog order, into a dictionary keyed by playlist id.
5. Save the dictionary to `playlist_items_<UTC timestamp>.json` if it is not empty.

Each collaborator call is one outcome read from an `Environment` value: either it raised, or it returned a value (`Call<T>`). This covers the token exchange (`get_token`), the two paginated fetchers (`get_paginated_featured_playlists` and `get_paginated_spotify_playlist`), the clock and the file write. The returned values are decoded JSON, modelled by `PyValues.Json`. Its Python truthiness, its hashability and the `in` operator decide the driver's branches.

A run produces a `Report`. It records how the run ended (`Exit`) and every collaborator request it made: the catalog request, each playlist request in order, and the write request with its path and dictionary.

Files:
- `python_values.dfy`, module `PyValues`: JSON values, truthiness, hashability, and Python's `in` for a string key.
- `main.dfy`, module `Driver`: the token gate and the id extraction. It also holds the aggregation loop, specified by the fold `Collected` over the ids, the lemmas about that fold, and `RunMain`, the whole run.

Behaviour of the code worth noting:
- Playlist data that is empty or falsy is not stored (line 79). It is not inserted as an empty collection.
- The driver passes the initial access token to every playlist fetch (line 72). A token refreshed inside one fetch never reaches the later fetches.
- Ids need not be unique. For a repeated id, the last fetch that returned data wins, and the key keeps the position of its first insertion.
- A failure of the featured-playlist fetch, a non-dict token response that passes the `"access_token" in token` test, and a catalog entry without `"id"` all raise exceptions that nothing catches. The model ends such a run with `Crashed(stage)`.

## Model

| member | source | states |
|---|---|---|
| `PyValues.Contains` | src/main.py:38 | `"access_token" in token` raises TypeError exactly for None, booleans and numbers; containers answer a key, element or substring test |
| `Driver.CheckToken` | src/main.py:35-49 | the run gets a token exactly when `get_token` returned a dict holding `"access_token"`, and it then uses that entry's value; it ends in the caught retrieval error exactly when `get_token` raised or returned `True` or a non-zero number; it stops with "Failed to obtain access token" exactly when the response is falsy or the `in` test answers false; the uncaught lookup crash at line 49 happens exactly for a non-empty list or string that passes the `in` test |
| `Driver.IdsOf` | src/main.py:61 | the comprehension succeeds exactly when every entry is a dict with `"id"`; the result then has the same length and order as the entries, and element i is entry i's `"id"` |
| `Driver.ExtractIds` | src/main.py:61 | the same, for the featured-playlists value, which line 54 guarantees is truthy: iterating a truthy value that is not a list of such dicts raises |
| `Driver.CollectPlaylistItems` | src/main.py:66-84 | the loop fetches every id in order, never stopping early, and passes the same access token to every fetch; the dictionary it builds equals the fold `Collected` over all the ids |
| `Driver.StorePreservesWellFormed` | src/main.py:79-80 | one store into the dictionary keeps the key order listing each key exactly once |
| `Driver.CollectedWellFormed` | src/main.py:66-84 | after the loop, the key order lists every key of the dictionary exactly once and nothing else |
| `Driver.StoredIffPresent` | src/main.py:68-84 | an id is a key of the result exactly when some fetch of that id returned truthy data and the id is hashable; an id whose fetches all raised or returned falsy data is absent |
| `Driver.LastStoredWins` | src/main.py:68-80 | the value stored under an id is the data of its last fetch that returned truthy data |
| `Driver.CollectedEmptyIff` | src/main.py:66-87 | the dictionary is empty, so nothing is saved, exactly when no fetch stored anything |
| `Driver.DistinctIdsKeepOrder` | src/main.py:66-80 | with distinct ids, the dictionary's keys are the ids whose fetch stored data, in catalog order |
| `Driver.OneFailedEntryOmitted` | src/main.py:68-84 | with K distinct ids where only the m-th fetch fails, the result has exactly K-1 keys, in catalog order, and omits the m-th id; processing continued past the failure |
| `Driver.RunMain` | src/main.py:27-99 | a run without a usable token makes no catalog or playlist request and writes nothing; the catalog is requested once with the token's `access_token`; an empty or falsy catalog ends the run before any playlist request or write; once ids are extracted, one request per id is made in order with the initial token; a write of `./playlist_items_<timestamp>.json` holding the collected dictionary is attempted exactly when the dictionary is non-empty, and the exit says whether it was saved, failed, or had nothing to save |

## Left out

- Loading `./env` and reading `CLIENT_ID` and `CLIENT_SECRET` (lines 13-16) is process configuration. The two values are fields of `Environment`.
- `get_token` and the paginated fetchers live in `authentication.py` and `endpoint.py`, which are not part of this model. Each call is an opaque outcome. Cursor walking, token refresh and page merging inside them are not modelled.
- The `get_token` callback that `main()` passes to both fetchers is not recorded in the requests. The model does not see what the fetchers do with it.
- The clock and `strftime` (line 88) are not modelled. The timestamp is an input string.
- JSON serialisation and the file write (lines 91-97) are I/O. The model records the write request and whether the write raised. It does not model a partly written file.
- The `print` diagnostics are left out. Only the exit branch is recorded.
- Python key equality across types is not modelled. Python treats `True == 1` as the same dictionary key, and ids are compared structurally here. Floating-point JSON numbers are not modelled; numbers are integers.
- Exceptions other than those listed above are not modelled. That includes errors raised by `print` or a keyboard interrupt.
