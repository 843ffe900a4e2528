/** The image entities (`BaseImmichImage` and its three subclasses): a cache
    of asset IDs refreshed at most every 12 hours, a random pick from it, and
    a retry loop that downloads the picked asset and stores it with its
    metadata. The hub is consulted through scripted exchanges and the clock
    through explicit instants. */
module Image {
  import opened Json
  import opened Hub

  /** A wall-clock instant (`datetime.now()`), in microseconds. */
  type Time = int

  /** `_ID_LIST_REFRESH_INTERVAL`: twelve hours. */
  const IdListRefreshInterval: int := 12 * 60 * 60 * 1_000_000

  /** Which subclass an entity is: where its asset IDs come from. */
  datatype Source = Favorites | Album(albumId: string) | MemoryLane

  // ---------------------------------------------------------------------
  // _refresh_available_asset_ids in the three subclasses

  /** `image["id"]` succeeds for every element. */
  predicate AllHaveIds(assets: seq<Json>) {
    forall i :: 0 <= i < |assets| ==> HasKey(assets[i], "id")
  }

  /** `[image["id"] for image in assets]`. */
  function Ids(assets: seq<Json>): (ids: seq<Json>)
    requires AllHaveIds(assets)
    ensures |ids| == |assets|
    ensures forall i :: 0 <= i < |assets| ==> ids[i] == assets[i].fields["id"]
  {
    if assets == [] then [] else [assets[0].fields["id"]] + Ids(assets[1..])
  }

  /** A 200 body has the shape the subclass's hub call needs. */
  predicate BodyShaped(source: Source, body: Json) {
    match source
    case Favorites => FavoritesShaped(body)
    case Album(_) => AlbumShaped(body)
    case MemoryLane => MemoryLaneShaped(body)
  }

  /** The image assets the subclass's hub call returns for a 200 body. */
  function ListedImages(source: Source, body: Json): seq<Json>
    requires BodyShaped(source, body)
  {
    match source
    case Favorites => ImageAssets(FavoriteItems(body))
    case Album(_) => ImageAssets(AlbumItems(body))
    case MemoryLane => MemoryLaneAssets(body.items)
  }

  /** The hub's reply is shaped as the subclass's refresh needs it. */
  predicate ListingShaped(source: Source, x: Exchange<Json>) {
    Ok(x) ==> BodyShaped(source, x.body) && AllHaveIds(ListedImages(source, x.body))
  }

  /** `ImmichImageFavorite._refresh_available_asset_ids`. */
  function FavoriteIds(x: Exchange<Json>): (r: Outcome<seq<Json>>)
    requires ListingShaped(Favorites, x)
    ensures r.Returned? <==> Ok(x)
    ensures r.Raised? ==> r == ListFavoriteImages(x)
    ensures r.Returned? ==> var images := ImageAssets(FavoriteItems(x.body));
      |r.value| == |images| && forall i :: 0 <= i < |images| ==> r.value[i] == images[i].fields["id"]
  {
    match ListFavoriteImages(x)
    case Raised(e) => Raised(e)
    case Returned(images) => Returned(Ids(images))
  }

  /** `ImmichImageAlbum._refresh_available_asset_ids`: `x` answers
      `list_album_images(albumId)`; the ID only selects the URL, which is not
      modelled. */
  function AlbumIds(albumId: string, x: Exchange<Json>): (r: Outcome<seq<Json>>)
    requires ListingShaped(Album(albumId), x)
    ensures r.Returned? <==> Ok(x)
    ensures r.Raised? ==> r == ListAlbumImages(x)
    ensures r.Returned? ==> var images := ImageAssets(AlbumItems(x.body));
      |r.value| == |images| && forall i :: 0 <= i < |images| ==> r.value[i] == images[i].fields["id"]
  {
    match ListAlbumImages(x)
    case Raised(e) => Raised(e)
    case Returned(images) => Returned(Ids(images))
  }

  /** `ImmichImageMemoryLane._refresh_available_asset_ids`; a transport
      failure escapes as aiohttp's error, not `CannotConnect`. */
  function MemoryLaneIds(x: Exchange<Json>): (r: Outcome<seq<Json>>)
    requires ListingShaped(MemoryLane, x)
    ensures r.Returned? <==> Ok(x)
    ensures x.TransportFailure? ==> r == Raised(ClientError)
    ensures x.Reply? && x.status != 200 ==> r == Raised(ApiError)
    ensures r.Returned? ==> var images := MemoryLaneAssets(x.body.items);
      |r.value| == |images| && forall i :: 0 <= i < |images| ==> r.value[i] == images[i].fields["id"]
  {
    match MemoryLaneResult(x)
    case Raised(e) => Raised(e)
    case Returned(images) => Returned(Ids(images))
  }

  /** The overridden `_refresh_available_asset_ids` of each subclass. */
  function RefreshedIds(source: Source, x: Exchange<Json>): (r: Outcome<seq<Json>>)
    requires ListingShaped(source, x)
    ensures r.Returned? <==> Ok(x)
    ensures r.Returned? ==> r.value == Ids(ListedImages(source, x.body))
    ensures x.Reply? && x.status != 200 ==> r == Raised(ApiError)
    ensures x.TransportFailure? ==> r == Raised(if source.MemoryLane? then ClientError else CannotConnect)
  {
    match source
    case Favorites => FavoriteIds(x)
    case Album(albumId) => AlbumIds(albumId, x)
    case MemoryLane => MemoryLaneIds(x)
  }

  // ---------------------------------------------------------------------
  // The asset-ID cache and its staleness rule

  /** `_cached_available_asset_ids` and `_available_asset_ids_last_updated`. */
  datatype IdCache = IdCache(ids: Option<seq<Json>>, updated: Option<Time>)

  /** Both fields are set together: a list exists exactly when a refresh
      time does. */
  predicate Paired(c: IdCache) {
    c.ids.None? <==> c.updated.None?
  }

  /** There has never been a refresh, or the last one is more than twelve
      hours old. */
  predicate NeedsRefresh(updated: Option<Time>, now: Time) {
    updated.None? || now - updated.value > IdListRefreshInterval
  }

  /** `if not self._cached_available_asset_ids` is false. */
  predicate HasIds(ids: Option<seq<Json>>) {
    ids.Some? && ids.value != []
  }

  /** Some ID in the list would get past `if not asset_id`. */
  predicate HasTruthyId(ids: Option<seq<Json>>) {
    ids.Some? && exists id <- ids.value :: Truthy(id)
  }

  /** The refresh part of `_get_next_asset_id`: `now` is read for the
      staleness test and `refreshedAt` after the subclass's list came back. */
  function RefreshStep(source: Source, c: IdCache, now: Time, listing: Exchange<Json>, refreshedAt: Time): (r: Outcome<IdCache>)
    requires ListingShaped(source, listing)
    ensures !NeedsRefresh(c.updated, now) ==> r == Returned(c)
    ensures NeedsRefresh(c.updated, now) ==>
      (r.Raised? <==> RefreshedIds(source, listing).Raised?)
    ensures NeedsRefresh(c.updated, now) && r.Raised? ==> r.error == RefreshedIds(source, listing).error
    ensures NeedsRefresh(c.updated, now) && r.Returned? ==>
      r.value == IdCache(Some(RefreshedIds(source, listing).value), Some(refreshedAt))
    ensures r.Returned? ==> r.value.updated.Some? && (Paired(c) ==> Paired(r.value))
  {
    if NeedsRefresh(c.updated, now) then
      match RefreshedIds(source, listing)
      case Raised(e) => Raised(e)
      case Returned(ids) => Returned(IdCache(Some(ids), Some(refreshedAt)))
    else
      Returned(c)
  }

  /** One pass of the retry loop, as the hub and the clock answer it. */
  datatype Attempt = Attempt(
    now: Time,                // datetime.now() in the staleness test
    listing: Exchange<Json>,  // the hub call behind the subclass's refresh
    refreshedAt: Time,        // datetime.now() after a refresh
    download: Exchange<Bytes>,// download_asset(asset_id)
    info: Exchange<Json>,     // get_asset_info(asset_id)
    storedAt: Time)           // datetime.now() when the image is stored

  predicate AttemptShaped(source: Source, a: Attempt) {
    ListingShaped(source, a.listing) && (Ok(a.info) ==> a.info.body.JObj?)
  }

  /** The cache after the refresh steps of `attempts`, in order; `Raised` once
      one of those refreshes raised. */
  function CacheAfter(source: Source, c: IdCache, attempts: seq<Attempt>): Outcome<IdCache>
    requires forall a <- attempts :: ListingShaped(source, a.listing)
    decreases |attempts|
  {
    if attempts == [] then Returned(c)
    else
      var prefix := attempts[..|attempts| - 1];
      assert forall a <- prefix :: a in attempts;
      match CacheAfter(source, c, prefix)
      case Raised(e) => Raised(e)
      case Returned(c') =>
        var a := attempts[|attempts| - 1];
        RefreshStep(source, c', a.now, a.listing, a.refreshedAt)
  }

  /** After the refresh step of pass `j` the cache holds an ID that the pass
      could go on to download. */
  predicate HadAssetId(source: Source, c: IdCache, attempts: seq<Attempt>, j: nat)
    requires forall a <- attempts :: ListingShaped(source, a.listing)
    requires j < |attempts|
  {
    assert forall a <- attempts[..j + 1] :: a in attempts;
    var after := CacheAfter(source, c, attempts[..j + 1]);
    after.Returned? && HasTruthyId(after.value.ids)
  }

  /** One more pass: the cache after `n + 1` attempts is the refresh step of
      attempt `n` applied to the cache after `n`. */
  lemma CacheAfterNext(source: Source, c: IdCache, attempts: seq<Attempt>, n: nat)
    requires forall a <- attempts :: ListingShaped(source, a.listing)
    requires n < |attempts|
    requires CacheAfter(source, c, attempts[..n]).Returned?
    ensures var a := attempts[n];
      CacheAfter(source, c, attempts[..n + 1])
      == RefreshStep(source, CacheAfter(source, c, attempts[..n]).value, a.now, a.listing, a.refreshedAt)
  {
    assert attempts[..n + 1][..n] == attempts[..n];
  }

  /** While every clock reading stays within twelve hours of the last
      refresh, the hub is not asked again and the cache stays as it is. */
  lemma {:induction false} NoRefreshWhileFresh(source: Source, c: IdCache, attempts: seq<Attempt>)
    requires forall a <- attempts :: ListingShaped(source, a.listing)
    requires c.updated.Some?
    requires forall a <- attempts :: a.now - c.updated.value <= IdListRefreshInterval
    ensures CacheAfter(source, c, attempts) == Returned(c)
    decreases |attempts|
  {
    if attempts != [] {
      var prefix := attempts[..|attempts| - 1];
      assert forall a <- prefix :: a in attempts;
      NoRefreshWhileFresh(source, c, prefix);
      assert attempts[|attempts| - 1] in attempts;
    }
  }

  /** `c` is exactly what the refresh of attempt `a` stored. */
  predicate StampedBy(source: Source, c: IdCache, a: Attempt) {
    ListingShaped(source, a.listing) && RefreshedIds(source, a.listing).Returned?
    && c == IdCache(Some(RefreshedIds(source, a.listing).value), Some(a.refreshedAt))
  }

  /** After any run of refresh steps the cache is either the one it started
      with or exactly what one of the attempts' refreshes returned, stamped
      with that attempt's refresh time. */
  lemma {:induction false} CacheComesFromSomeRefresh(source: Source, c: IdCache, attempts: seq<Attempt>)
    requires forall a <- attempts :: ListingShaped(source, a.listing)
    requires CacheAfter(source, c, attempts).Returned?
    ensures var c' := CacheAfter(source, c, attempts).value;
      c' == c || exists k :: 0 <= k < |attempts| && StampedBy(source, c', attempts[k])
    decreases |attempts|
  {
    if attempts != [] {
      var n := |attempts| - 1;
      var prefix := attempts[..n];
      assert forall a <- prefix :: a in attempts;
      CacheComesFromSomeRefresh(source, c, prefix);
      var mid := CacheAfter(source, c, prefix).value;
      var a := attempts[n];
      if NeedsRefresh(mid.updated, a.now) {
        assert StampedBy(source, CacheAfter(source, c, attempts).value, attempts[n]);
      } else if mid != c {
        var k :| 0 <= k < |prefix| && StampedBy(source, mid, prefix[k]);
        assert prefix[k] == attempts[k];
      }
    }
  }

  // ---------------------------------------------------------------------
  // Metadata attributes

  /** `asset_info.get(key) or ""`. */
  function MediaAttribute(info: Json, key: string): (v: Json)
    requires info.JObj?
    ensures Truthy(v) || v == JStr("")
    ensures Truthy(Get(info, key)) ==> key in info.fields && v == info.fields[key]
    ensures !Truthy(Get(info, key)) ==> v == JStr("")
  {
    var found := Get(info, key);
    if Truthy(found) then found else JStr("")
  }

  /** The three `media_*` entries written into `_attr_extra_state_attributes`. */
  function MediaAttributes(attrs: map<string, Json>, info: Json): (r: map<string, Json>)
    requires info.JObj?
    ensures r.Keys == attrs.Keys + {"media_filename", "media_exif", "media_localdatetime"}
    ensures r["media_filename"] == MediaAttribute(info, "originalFileName")
    ensures r["media_exif"] == MediaAttribute(info, "exifInfo")
    ensures r["media_localdatetime"] == MediaAttribute(info, "localDateTime")
    ensures forall k <- attrs :: k != "media_filename" && k != "media_exif" && k != "media_localdatetime" ==> r[k] == attrs[k]
  {
    attrs["media_filename" := MediaAttribute(info, "originalFileName")]
         ["media_exif" := MediaAttribute(info, "exifInfo")]
         ["media_localdatetime" := MediaAttribute(info, "localDateTime")]
  }

  // ---------------------------------------------------------------------
  // The entity

  /** `if not asset_bytes` is false: bytes were delivered and are non-empty. */
  predicate NonEmpty(b: Option<Bytes>) {
    b.Some? && b.value != []
  }

  /** The download of an attempt answered, but with nothing to show
      (`None` or empty bytes), so the loop goes round again. */
  predicate DownloadEmpty(a: Attempt) {
    a.download.Reply? && !NonEmpty(DownloadAsset(a.download).value)
  }

  /** How one pass, or the whole of `_load_and_cache_next_image`, ended.
      `Retry` ends a pass whose download came back empty, so the loop goes
      round again; the whole load never ends with it. `Exhausted` ends a load
      whose scripted attempts ran out while no download had succeeded yet. */
  datatype LoadEnd = Stored | NoAsset | Failed(error: Error) | Retry | Exhausted

  class ImmichImage {
    const source: Source
    var currentImageBytes: Option<Bytes>
    var cachedAssetIds: Option<seq<Json>>
    var idsLastUpdated: Option<Time>
    var extraStateAttributes: map<string, Json>
    var imageLastUpdated: Option<Time>

    ghost predicate Valid()
      reads this
    {
      Paired(Cache())
    }

    function Cache(): IdCache
      reads this
    {
      IdCache(cachedAssetIds, idsLastUpdated)
    }

    constructor (source: Source)
      ensures Valid() && this.source == source
      ensures currentImageBytes == None && Cache() == IdCache(None, None)
      ensures extraStateAttributes == map[] && imageLastUpdated == None
    {
      this.source := source;
      currentImageBytes := None;
      cachedAssetIds := None;
      idsLastUpdated := None;
      extraStateAttributes := map[];
      imageLastUpdated := None;
    }

    /** `_get_next_asset_id`: refresh the list when stale, then pick any of
        its IDs, or `None` when it is missing or empty. */
    method GetNextAssetId(now: Time, listing: Exchange<Json>, refreshedAt: Time) returns (r: Outcome<Option<Json>>)
      requires Valid() && ListingShaped(source, listing)
      modifies this`cachedAssetIds, this`idsLastUpdated
      ensures Valid()
      ensures var step := RefreshStep(source, old(Cache()), now, listing, refreshedAt);
        (step.Raised? ==> r == Raised(step.error) && Cache() == old(Cache()))
        && (step.Returned? ==> r.Returned? && Cache() == step.value)
      ensures r.Returned? ==> cachedAssetIds.Some? && idsLastUpdated.Some?
      ensures r.Returned? ==> (r.value.None? <==> cachedAssetIds.value == [])
      ensures r.Returned? && r.value.Some? ==> r.value.value in cachedAssetIds.value
    {
      if NeedsRefresh(idsLastUpdated, now) {
        var refreshed := RefreshedIds(source, listing);
        if refreshed.Raised? {
          return Raised(refreshed.error);
        }
        cachedAssetIds := Some(refreshed.value);
        idsLastUpdated := Some(refreshedAt);
      }
      if !HasIds(cachedAssetIds) {
        return Returned(None);
      }
      var ids := cachedAssetIds.value;
      var k :| 0 <= k < |ids|;  // random.choice
      r := Returned(Some(ids[k]));
    }

    /** What one run of `_load_and_cache_next_image` over `attempts` did to
        this entity, ending as `end` after `used` passes. */
    twostate predicate LoadedBy(attempts: seq<Attempt>, end: LoadEnd, used: nat)
      reads this
    {
      (forall a <- attempts :: ListingShaped(source, a.listing) && AttemptShaped(source, a))
      && used <= |attempts| && (end.Exhausted? ==> used == |attempts|)
      && !end.Retry? && (!end.Exhausted? ==> used > 0)
      // every pass before the last one had an ID to download, and its
      // download came back empty
      && (forall j :: 0 <= j < used - 1 ==> DownloadEmpty(attempts[j]))
      && (forall j :: 0 <= j < used - 1 ==> HadAssetId(source, old(Cache()), attempts, j))
      && (end.Exhausted? ==> forall j :: 0 <= j < used ==> DownloadEmpty(attempts[j]))
      && (end.Exhausted? ==> forall j :: 0 <= j < used ==> HadAssetId(source, old(Cache()), attempts, j))
      // a last pass whose refresh went through ends with `NoAsset`, before
      // any download, unless the list holds an ID to download
      && (used > 0 && !end.NoAsset? && CacheAfter(source, old(Cache()), attempts[..used]).Returned?
          ==> HasTruthyId(cachedAssetIds))
      // the ID cache went through the refresh steps of the passes that ran
      && (CacheAfter(source, old(Cache()), attempts[..used]) == Returned(Cache())
          || (end.Failed? && CacheAfter(source, old(Cache()), attempts[..used]).Raised?
              && CacheAfter(source, old(Cache()), attempts[..used - 1]) == Returned(Cache())))
      // the image is stored only from a non-empty download, and then at once
      && (end.Stored? ==>
            var a := attempts[used - 1];
            Ok(a.download) && a.download.body != [] && Ok(a.info) && a.info.body.JObj?
            && currentImageBytes == Some(a.download.body)
            && extraStateAttributes == MediaAttributes(old(extraStateAttributes), a.info.body)
            && imageLastUpdated == Some(a.storedAt))
      && (!end.Stored? ==>
            currentImageBytes == old(currentImageBytes)
            && extraStateAttributes == old(extraStateAttributes)
            && imageLastUpdated == old(imageLastUpdated))
      && (end.NoAsset? ==> !HasIds(cachedAssetIds) || exists id <- cachedAssetIds.value :: !Truthy(id))
      // the only errors are those of the last pass's refresh, download or
      // info call, and a refresh that raised is the error
      && (end.Failed? ==>
            var a := attempts[used - 1];
            (CacheAfter(source, old(Cache()), attempts[..used]).Raised?
             && end.error == CacheAfter(source, old(Cache()), attempts[..used]).error)
            || (DownloadAsset(a.download).Raised? && end.error == CannotConnect)
            || (DownloadAsset(a.download).Returned? && NonEmpty(DownloadAsset(a.download).value)
                && GetAssetInfo(a.info) == Raised(end.error)))
      && (end.Failed? && CacheAfter(source, old(Cache()), attempts[..used]).Raised?
          ==> end.error == CacheAfter(source, old(Cache()), attempts[..used]).error)
    }

    /** What one pass of the loop body did to this entity: the refresh step,
        the pick, the download and, after a non-empty download, the info call
        and the store. */
    twostate predicate PassedBy(a: Attempt, end: LoadEnd)
      reads this
    {
      AttemptShaped(source, a)
      && var step := RefreshStep(source, old(Cache()), a.now, a.listing, a.refreshedAt);
      (step.Raised? ==> end == Failed(step.error) && Cache() == old(Cache()))
      && (step.Returned? ==> Cache() == step.value)
      && !end.Exhausted?
      && (step.Returned? && !HasTruthyId(step.value.ids) ==> end == NoAsset)
      && (end.Retry? ==> step.Returned? && DownloadEmpty(a))
      && (end.NoAsset? ==> step.Returned? && (!HasIds(cachedAssetIds) || exists id <- cachedAssetIds.value :: !Truthy(id)))
      && (end.Stored? ==>
            Ok(a.download) && a.download.body != [] && Ok(a.info) && a.info.body.JObj?
            && currentImageBytes == Some(a.download.body)
            && extraStateAttributes == MediaAttributes(old(extraStateAttributes), a.info.body)
            && imageLastUpdated == Some(a.storedAt))
      && (!end.Stored? ==>
            currentImageBytes == old(currentImageBytes)
            && extraStateAttributes == old(extraStateAttributes)
            && imageLastUpdated == old(imageLastUpdated))
      && (end.Failed? ==>
            (step.Raised? && end.error == step.error)
            || (DownloadAsset(a.download).Raised? && end.error == CannotConnect)
            || (DownloadAsset(a.download).Returned? && NonEmpty(DownloadAsset(a.download).value)
                && GetAssetInfo(a.info) == Raised(end.error)))
    }

    /** One pass of the `while not asset_bytes` loop of
        `_load_and_cache_next_image`. */
    method LoadPass(a: Attempt) returns (end: LoadEnd)
      requires Valid() && AttemptShaped(source, a)
      modifies this`cachedAssetIds, this`idsLastUpdated, this`currentImageBytes,
               this`extraStateAttributes, this`imageLastUpdated
      ensures Valid() && PassedBy(a, end)
    {
      var next := GetNextAssetId(a.now, a.listing, a.refreshedAt);
      if next.Raised? {
        return Failed(next.error);
      }
      if next.value.None? || !Truthy(next.value.value) {
        return NoAsset;
      }
      var downloaded := DownloadAsset(a.download);
      if downloaded.Raised? {
        return Failed(downloaded.error);
      }
      var assetBytes := downloaded.value;
      if !NonEmpty(assetBytes) {
        return Retry;  // asyncio.sleep(1), then the next pass
      }
      var info := GetAssetInfo(a.info);
      if info.Raised? {
        return Failed(info.error);
      }
      extraStateAttributes := MediaAttributes(extraStateAttributes, info.value);
      currentImageBytes := assetBytes;
      imageLastUpdated := Some(a.storedAt);
      end := Stored;
    }

    /** `_load_and_cache_next_image`: the `while not asset_bytes` loop, one
        scripted attempt per pass; `used` is how many passes ran. */
    method LoadAndCacheNextImage(attempts: seq<Attempt>) returns (end: LoadEnd, used: nat)
      requires Valid()
      requires forall a <- attempts :: AttemptShaped(source, a)
      modifies this`cachedAssetIds, this`idsLastUpdated, this`currentImageBytes,
               this`extraStateAttributes, this`imageLastUpdated
      ensures Valid() && LoadedBy(attempts, end, used)
    {
      ghost var c0 := Cache();
      assert forall a <- attempts :: ListingShaped(source, a.listing) by {
        forall a <- attempts ensures ListingShaped(source, a.listing) {
          assert AttemptShaped(source, a);
        }
      }
      used, end := 0, Exhausted;
      while used < |attempts|
        invariant used <= |attempts| && Valid() && end == Exhausted
        invariant CacheAfter(source, c0, attempts[..used]) == Returned(Cache())
        invariant forall j :: 0 <= j < used ==> DownloadEmpty(attempts[j])
        invariant forall j :: 0 <= j < used ==> HadAssetId(source, c0, attempts, j)
        invariant currentImageBytes == old(currentImageBytes)
        invariant extraStateAttributes == old(extraStateAttributes)
        invariant imageLastUpdated == old(imageLastUpdated)
      {
        var a := attempts[used];
        CacheAfterNext(source, c0, attempts, used);
        assert AttemptShaped(source, a);
        used := used + 1;
        var passEnd := LoadPass(a);
        if !passEnd.Retry? {
          end := passEnd;
          break;
        }
      }
      if end.Exhausted? && used > 0 {
        assert HadAssetId(source, c0, attempts, used - 1);
      }
    }

    /** `async_update`: load the next image unconditionally. */
    method AsyncUpdate(attempts: seq<Attempt>) returns (end: LoadEnd, used: nat)
      requires Valid()
      requires forall a <- attempts :: AttemptShaped(source, a)
      modifies this`cachedAssetIds, this`idsLastUpdated, this`currentImageBytes,
               this`extraStateAttributes, this`imageLastUpdated
      ensures Valid() && LoadedBy(attempts, end, used)
    {
      end, used := LoadAndCacheNextImage(attempts);
    }

    /** `async_image`: load exactly when there are no bytes (`None` or
        empty), then return whatever bytes are stored. */
    method AsyncImage(attempts: seq<Attempt>) returns (r: Outcome<Option<Bytes>>, loaded: bool, end: LoadEnd, used: nat)
      requires Valid()
      requires forall a <- attempts :: AttemptShaped(source, a)
      modifies this`cachedAssetIds, this`idsLastUpdated, this`currentImageBytes,
               this`extraStateAttributes, this`imageLastUpdated
      ensures Valid()
      ensures loaded <==> !NonEmpty(old(currentImageBytes))
      ensures loaded ==> LoadedBy(attempts, end, used)
      ensures r.Raised? <==> loaded && end.Failed?
      ensures loaded && end.Failed? ==> r == Raised(end.error)
      ensures !loaded ==> used == 0 && unchanged(this)
      ensures r.Returned? ==> r.value == currentImageBytes
      ensures currentImageBytes == old(currentImageBytes) || NonEmpty(currentImageBytes)
    {
      loaded, end, used := false, Exhausted, 0;
      if !NonEmpty(currentImageBytes) {
        loaded := true;
        end, used := LoadAndCacheNextImage(attempts);
        if end.Failed? {
          return Raised(end.error), loaded, end, used;
        }
      }
      r := Returned(currentImageBytes);
    }
  }

  /** A new favorites entity whose first refresh lists no images stops at
      `if not asset_id` with `NoAsset`: the download on offer is never
      stored, and the entity still has no bytes. */
  method EmptyFavoritesStoreNothing() returns (end: LoadEnd, bytes: Option<Bytes>)
    ensures end == NoAsset && bytes == None
  {
    var e := new ImmichImage(Favorites);
    var listing := Reply(200, JObj(map["assets" := JObj(map["items" := JArr([])])]));
    var a := Attempt(0, listing, 1, Reply(200, [7]), Reply(200, JObj(map[])), 2);
    assert FavoriteIds(listing) == Returned([]) by {
      assert ImageAssets([]) == [];
    }
    assert [a][..1] == [a] && [a][..0] == [];
    assert CacheAfter(Favorites, IdCache(None, None), [a]) == Returned(IdCache(Some([]), Some(1)));
    var used;
    end, used := e.LoadAndCacheNextImage([a]);
    bytes := e.currentImageBytes;
  }

  /** A new favorites entity whose refresh gets a 500 raises the refresh's
      `ApiError`, never the `CannotConnect` the download would have given. */
  method FailedRefreshRaisesItsError() returns (end: LoadEnd)
    ensures end == Failed(ApiError)
  {
    var e := new ImmichImage(Favorites);
    var a := Attempt(0, Reply(500, JNull), 1, TransportFailure, Reply(200, JObj(map[])), 2);
    assert [a][..1] == [a] && [a][..0] == [];
    assert CacheAfter(Favorites, IdCache(None, None), [a]) == Raised(ApiError);
    var used;
    end, used := e.LoadAndCacheNextImage([a]);
  }
}
