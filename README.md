# Immich for Home Assistant: hub responses and the image entity's ID cache

This project models the two pieces of decision logic in the Immich
integration for Home Assistant, and proves properties about them in Dafny.

- **The hub** (`ImmichHub`, `hub.dfy`, module `Hub`). Each operation makes
  one HTTP round trip. That round trip is an `Exchange` value: either a
  transport failure (aiohttp's `ClientError`) or a status code with a
  decoded JSON body (raw bytes for the thumbnail). Each operation is the
  function from that value to an `Outcome`: a returned value, or one of the
  exceptions `CannotConnect`, `ApiError`, `InvalidAuth` or `ClientError`.
  `list_memory_lane_images` builds its result with nested loops, so it is a
  method. That method is proved equal to the specification function
  `MemoryLaneResult`.
- **The image entity** (`BaseImmichImage` and its subclasses, `image.dfy`,
  module `Image`). The class `ImmichImage` has the fields the source updates
  in place:
  - the current image bytes;
  - the cached asset-ID list and its refresh time;
  - the extra state attributes;
  - the image's last-updated time.

  A `Source` value says which subclass the entity is: favorites, album or
  memory lane. The clock readings and the hub's answers are given to the
  methods as scripted `Attempt` values, one per pass of the retry loop.
  `random.choice` is a nondeterministic pick of any element of the list.
- `json.dfy` (module `Json`) holds decoded JSON values with Python
  truthiness and `dict.get`.

The source's `KeyError` and `TypeError` cases are preconditions on the
shape of a 200 reply's body. Examples are `asset["type"]` in the favorite
and album comprehensions, and `image["id"]` in the subclasses.

## Model

| member | source | states |
|---|---|---|
| `Json.Get` | custom_components/immich/hub.py:44 | `dict.get`: the value under the key when present, otherwise `None`, which is falsy |
| `Hub.Authenticate` | custom_components/immich/hub.py:30-52 | returns true iff the status is 200 and the body's `authStatus` is truthy; returns false for every other reply, never `ApiError`; a transport failure raises `CannotConnect` |
| `Hub.GetMyUserInfo` | custom_components/immich/hub.py:54-71 | returns a value iff the status is 200, and that value is the decoded body; any other status raises `ApiError`; a transport failure raises `CannotConnect` |
| `Hub.GetAssetInfo` | custom_components/immich/hub.py:73-90 | returns a value iff the status is 200, and that value is the decoded body; any other status raises `ApiError`; a transport failure raises `CannotConnect` |
| `Hub.DownloadAsset` | custom_components/immich/hub.py:92-106 | a 200 reply's body is returned unchanged; any other status returns `None` and raises nothing; only a transport failure raises, as `CannotConnect` |
| `Hub.ImageAssets` | custom_components/immich/hub.py:126-128 | the kept assets are images taken from the input, and there are no more of them than input assets |
| `Hub.ImageAssetsIsSubsequence` | custom_components/immich/hub.py:126-128 | the filtered list is a subsequence of the input: relative order is kept |
| `Hub.ImageAssetsCounts` | custom_components/immich/hub.py:169-171 | every `IMAGE` asset is kept exactly as often as it occurs, and every other asset is dropped |
| `Hub.ImageAssetsAppend` | custom_components/immich/hub.py:197-200 | filtering a concatenation gives the concatenation of the filtered parts |
| `Hub.ImageAssetsIdempotent` | custom_components/immich/hub.py:126-128 | filtering an already filtered list changes nothing |
| `Hub.FavoriteItems` | custom_components/immich/hub.py:124 | `favorites["assets"]["items"]` is a list of objects, so the `asset["type"]` subscripts after it apply |
| `Hub.ListFavoriteImages` | custom_components/immich/hub.py:108-133 | returns a value iff the status is 200, and that value is the `IMAGE` filter of `body["assets"]["items"]`; any other status raises `ApiError`; a transport failure raises `CannotConnect` |
| `Hub.ListAllAlbums` | custom_components/immich/hub.py:135-152 | a 200 reply returns the decoded body unfiltered; any other status raises `ApiError`; a transport failure raises `CannotConnect` |
| `Hub.AlbumItems` | custom_components/immich/hub.py:167 | `album_info["assets"]` is a list of objects, so the `asset["type"]` subscripts after it apply |
| `Hub.ListAlbumImages` | custom_components/immich/hub.py:154-176 | returns a value iff the status is 200, and that value is the `IMAGE` filter of `body["assets"]`; any other status raises `ApiError`; a transport failure raises `CannotConnect` |
| `Hub.EntryAssets` | custom_components/immich/hub.py:198 | `item["assets"]` of a memory-lane entry is a list of objects, so the `asset.get("type")` after it applies |
| `Hub.MemoryLaneAssets` | custom_components/immich/hub.py:195-201 | every asset in the flattened memory lane is an `IMAGE` asset |
| `Hub.MemoryLaneAssetsAppend` | custom_components/immich/hub.py:197-200 | flattening follows entry order: the result for `s + t` is the result for `s` followed by the result for `t` |
| `Hub.MemoryLaneAssetsCounts` | custom_components/immich/hub.py:195-201 | an asset occurs in the result as often as it occurs across all entries if it is an image, and not at all otherwise |
| `Hub.MemoryLaneSkipsUntyped` | custom_components/immich/hub.py:199 | an asset without a `type` key is skipped, not an error |
| `Hub.MemoryLaneExample` | custom_components/immich/hub.py:196-201 | entries `[A]` and `[B (video), C]` flatten to `[A, C]` |
| `Hub.MemoryLaneResult` | custom_components/immich/hub.py:178-201 | returns a value iff the status is 200, and that value is the flattened memory lane of the body's entries; any other status raises `ApiError`; a transport failure is not wrapped and escapes as aiohttp's `ClientError` |
| `Hub.ListMemoryLaneImages` | custom_components/immich/hub.py:178-201 | the nested append loops compute exactly `MemoryLaneResult`: each entry's images, entry after entry |
| `Image.Ids` | custom_components/immich/image.py:164 | the ID list has one entry per asset, in order, and entry `i` is asset `i`'s `id` |
| `Image.FavoriteIds` | custom_components/immich/image.py:162-164 | the favorites entity's IDs are the `id`s of `list_favorite_images`, in order; that call's errors propagate unchanged |
| `Image.AlbumIds` | custom_components/immich/image.py:179-183 | the album entity's IDs are the `id`s of `list_album_images`, in order; that call's errors propagate unchanged |
| `Image.MemoryLaneIds` | custom_components/immich/image.py:192-193 | the memory-lane entity's IDs are the `id`s of `list_memory_lane_images`, in order; a transport failure escapes as `ClientError` |
| `Image.RefreshedIds` | custom_components/immich/image.py:97-99 | each subclass's refresh returns a list iff the hub answered 200, and that list is the `id`s of the images the subclass's hub call returns, in order; any other status raises `ApiError`; a transport failure raises `CannotConnect`, or `ClientError` for the memory lane |
| `Image.RefreshStep` | custom_components/immich/image.py:103-111 | the list is refreshed iff there was no refresh yet or the last one is more than 12 hours old; after a refresh the cache holds the subclass's list and the refresh time; a failed refresh changes nothing; list and time stay paired |
| `Image.NoRefreshWhileFresh` | custom_components/immich/image.py:22 | while every clock reading stays within 12 hours of the last refresh, the hub is not asked again and the cache is unchanged |
| `Image.CacheComesFromSomeRefresh` | custom_components/immich/image.py:110-111 | after any run of passes, the cache is either the initial one or exactly the list and time stored by one pass's refresh |
| `Image.MediaAttribute` | custom_components/immich/image.py:141-149 | an attribute is the asset-info field when that field is present and truthy, and `""` otherwise |
| `Image.MediaAttributes` | custom_components/immich/image.py:141-149 | writes `media_filename`, `media_exif` and `media_localdatetime` from `originalFileName`, `exifInfo` and `localDateTime`; every other attribute is unchanged |
| `Image.ImmichImage.constructor` | custom_components/immich/image.py:74-84 | a new entity has no bytes, no ID list, no refresh time and empty attributes |
| `Image.ImmichImage.GetNextAssetId` | custom_components/immich/image.py:101-121 | the cache goes through `RefreshStep` (a failed refresh raises and changes nothing); after a successful step the list and its refresh time are both present; returns `None` iff the list is empty, and otherwise an element of the list |
| `Image.ImmichImage.LoadPass` | custom_components/immich/image.py:128-153 | one pass of the loop body: an error comes only from the refresh, from `download_asset` (`CannotConnect`) or from `get_asset_info` after a non-empty download; `NoAsset`, before any download, whenever the refreshed list has no truthy ID, and only when the list is empty or the pick is falsy; an empty download changes no image field and ends the pass with `Retry`; a non-empty download with an info reply stores the bytes, the three `media_*` attributes and the time |
| `Image.ImmichImage.LoadAndCacheNextImage` | custom_components/immich/image.py:123-153 | every pass before the last had a truthy ID to download and an empty download; a pass whose refreshed list has no truthy ID ends the load with `NoAsset`, so nothing is downloaded or stored from it; the bytes are stored only from a non-empty download, together with its metadata and time, and the loop stops right after that; the only errors are those of the last pass's refresh, download or info call, and when that refresh raised, its error is the one raised; without an asset ID, or on an error, bytes and attributes are unchanged; the cache follows the refresh steps of the passes that ran |
| `Image.EmptyFavoritesStoreNothing` | custom_components/immich/image.py:128-131 | a new favorites entity whose refresh lists no images ends its load with `NoAsset` and still has no bytes, though a download was on offer |
| `Image.FailedRefreshRaisesItsError` | custom_components/immich/image.py:104-111 | a new favorites entity whose refresh gets a 500 raises that refresh's `ApiError`, though its download would have failed with `CannotConnect` |
| `Image.ImmichImage.AsyncUpdate` | custom_components/immich/image.py:86-88 | always runs the load, with the load's whole contract |
| `Image.ImmichImage.AsyncImage` | custom_components/immich/image.py:90-95 | loads iff the current bytes are `None` or empty, with the load's whole contract; raises iff it loaded and the load failed, with the load's error; otherwise returns the current bytes field; with bytes present nothing changes |

## Left out

- Session and connector creation, `close_session`, headers and URL
  construction (`urljoin`, the query strings). These are network plumbing;
  the model sees only the abstract `Exchange`. For the same reason the hub
  has no `host` and `api_key` fields.
- Logging, `async`/`await` scheduling and `asyncio.sleep(1)` between
  retries. Every operation runs in sequence.
- `datetime.now()` is an explicit `Time` (microseconds). `random.choice` is
  a nondeterministic choice (`:|`).
- JSON decoding. A body is a `Json` value. A body whose shape would make the
  Python code raise `KeyError`, `TypeError` or `AttributeError` is excluded
  by a precondition, not modelled as an exception. So is a decoding failure
  inside `response.json()`.
- JSON numbers are integers (`JNum(n: int)`). Floats are not represented,
  so the falsy `0.0` cannot occur in `authStatus` or in the `media_*`
  fields.
- Image.ImmichImage.LoadAndCacheNextImage: the source retries forever
  while downloads come back empty. The model runs one pass per scripted
  `Attempt` and reports `Exhausted` when the script runs out. Each attempt's
  replies do not depend on which ID was picked.
- Image.ImmichImage.LoadAndCacheNextImage: every scripted attempt must be
  well-shaped, including attempts the run never reaches.
- Image.ImmichImage.AsyncImage: when the scripted attempts run out
  (`Exhausted`), it returns the bytes it has (`None` or empty). The source
  would still be retrying at that point.
- Image.ImmichImage.LoadPass: the source has no such function. It is the
  body of the `while not asset_bytes` loop, written as a method so that the
  loop's proof stays small.
- Image.ImmichImage.GetNextAssetId: it cannot state that every element of
  the list may be picked. It states only that the pick belongs to the list.
- Entity registration and setup (`async_setup_entry`, `update_listener`,
  image.py:27-63), entity names and unique IDs, and `async_write_ha_state`
  at image.py:153.
- config_flow.py (form flow over libraries not shown here) and
  `__init__.py` (setup and unload plumbing). `InvalidAuth` is raised there,
  not in the hub.
