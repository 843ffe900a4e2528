/** The Immich hub (`ImmichHub`): every operation is one HTTP round trip whose
    answer is given as an `Exchange` value, and the operation is the function
    (or, for the memory lane, the method) that turns that answer into what
    the Python coroutine returns or raises. */
module Hub {
  import opened Json

  newtype Byte = x: int | 0 <= x < 256
  type Bytes = seq<Byte>

  /** One request/response round trip: either aiohttp raised a `ClientError`
      somewhere in it, or the server answered with a status and a body
      (decoded JSON, or raw bytes for the thumbnail). */
  datatype Exchange<+B> = TransportFailure | Reply(status: int, body: B)

  /** The exceptions an operation can raise. `InvalidAuth` is declared by the
      hub but raised only by its callers; `ClientError` is aiohttp's own
      exception, escaping unwrapped. */
  datatype Error = CannotConnect | InvalidAuth | ApiError | ClientError

  /** What a coroutine does: return a value or raise. */
  datatype Outcome<+T> = Returned(value: T) | Raised(error: Error)

  predicate Ok<B>(x: Exchange<B>) {
    x.Reply? && x.status == 200
  }

  // ---------------------------------------------------------------------
  // authenticate, get_my_user_info, get_asset_info, download_asset

  /** `authenticate`: a boolean verdict, never `ApiError`. */
  function Authenticate(x: Exchange<Json>): (r: Outcome<bool>)
    requires Ok(x) ==> x.body.JObj?
    ensures r == Returned(true) <==> Ok(x) && Truthy(Get(x.body, "authStatus"))
    ensures r == Returned(false) <==> x.Reply? && !(Ok(x) && Truthy(Get(x.body, "authStatus")))
    ensures r.Raised? <==> x.TransportFailure?
    ensures r.Raised? ==> r.error == CannotConnect
  {
    match x
    case TransportFailure => Raised(CannotConnect)
    case Reply(status, body) =>
      if status != 200 then Returned(false)
      else if !Truthy(Get(body, "authStatus")) then Returned(false)
      else Returned(true)
  }

  /** `get_my_user_info`: the decoded body of a 200 reply. */
  function GetMyUserInfo(x: Exchange<Json>): (r: Outcome<Json>)
    ensures r.Returned? <==> Ok(x)
    ensures r.Returned? ==> r.value == x.body
    ensures x.Reply? && x.status != 200 ==> r == Raised(ApiError)
    ensures x.TransportFailure? ==> r == Raised(CannotConnect)
  {
    match x
    case TransportFailure => Raised(CannotConnect)
    case Reply(status, body) => if status != 200 then Raised(ApiError) else Returned(body)
  }

  /** `get_asset_info`: the decoded body of a 200 reply. */
  function GetAssetInfo(x: Exchange<Json>): (r: Outcome<Json>)
    ensures r.Returned? <==> Ok(x)
    ensures r.Returned? ==> r.value == x.body
    ensures x.Reply? && x.status != 200 ==> r == Raised(ApiError)
    ensures x.TransportFailure? ==> r == Raised(CannotConnect)
  {
    match x
    case TransportFailure => Raised(CannotConnect)
    case Reply(status, body) => if status != 200 then Raised(ApiError) else Returned(body)
  }

  /** `download_asset`: the raw body of a 200 reply, `None` for any other
      status; only a transport failure raises. */
  function DownloadAsset(x: Exchange<Bytes>): (r: Outcome<Option<Bytes>>)
    ensures r.Raised? <==> x.TransportFailure?
    ensures r.Raised? ==> r.error == CannotConnect
    ensures Ok(x) ==> r == Returned(Some(x.body))
    ensures x.Reply? && x.status != 200 ==> r == Returned(None)
  {
    match x
    case TransportFailure => Raised(CannotConnect)
    case Reply(status, body) => if status != 200 then Returned(None) else Returned(Some(body))
  }

  datatype Option<+T> = None | Some(value: T)

  // ---------------------------------------------------------------------
  // Filtering assets to images

  /** `asset.get("type") == "IMAGE"` (and, where the key is present,
      `asset["type"] == "IMAGE"`). */
  predicate IsImage(asset: Json)
    requires asset.JObj?
  {
    Get(asset, "type") == JStr("IMAGE")
  }

  predicate AllObjects(assets: seq<Json>) {
    forall a <- assets :: a.JObj?
  }

  /** `[a for a in assets if a["type"] == "IMAGE"]` never hits a KeyError. */
  predicate AllTyped(assets: seq<Json>) {
    forall a <- assets :: HasKey(a, "type")
  }

  /** The images among `assets`, in their order. */
  function ImageAssets(assets: seq<Json>): (r: seq<Json>)
    requires AllObjects(assets)
    ensures |r| <= |assets|
    ensures forall a <- r :: a in assets && IsImage(a)
  {
    if assets == [] then []
    else if IsImage(assets[0]) then [assets[0]] + ImageAssets(assets[1..])
    else ImageAssets(assets[1..])
  }

  /** `s` can be obtained from `t` by deleting elements. */
  predicate IsSubsequence<T(==)>(s: seq<T>, t: seq<T>)
    decreases |t|
  {
    s == [] || (t != [] && if s[0] == t[0] then IsSubsequence(s[1..], t[1..]) else IsSubsequence(s, t[1..]))
  }

  lemma {:induction false} ImageAssetsIsSubsequence(assets: seq<Json>)
    requires AllObjects(assets)
    ensures IsSubsequence(ImageAssets(assets), assets)
  {
    if assets != [] {
      ImageAssetsIsSubsequence(assets[1..]);
      var r := ImageAssets(assets);
      if !IsImage(assets[0]) && r != [] {
        // r comes from assets[1..], whose elements are all images; if r[0]
        // were assets[0] it would be an image
        assert r[0] in r;
      }
    }
  }

  /** Every image of `assets` survives as often as it occurs; nothing else does. */
  lemma {:induction false} ImageAssetsCounts(assets: seq<Json>, a: Json)
    requires AllObjects(assets)
    ensures multiset(ImageAssets(assets))[a] == if a.JObj? && IsImage(a) then multiset(assets)[a] else 0
  {
    if assets == [] {
    } else {
      ImageAssetsCounts(assets[1..], a);
      assert assets == [assets[0]] + assets[1..];
      assert multiset(assets) == multiset{assets[0]} + multiset(assets[1..]);
    }
  }

  /** Filtering commutes with concatenation: entries are filtered independently. */
  lemma {:induction false} ImageAssetsAppend(s: seq<Json>, t: seq<Json>)
    requires AllObjects(s) && AllObjects(t)
    ensures AllObjects(s + t)
    ensures ImageAssets(s + t) == ImageAssets(s) + ImageAssets(t)
  {
    if s == [] {
      assert s + t == t;
    } else {
      assert (s + t)[1..] == s[1..] + t;
      ImageAssetsAppend(s[1..], t);
    }
  }

  /** Filtering a filtered list changes nothing. */
  lemma {:induction false} ImageAssetsIdempotent(assets: seq<Json>)
    requires AllObjects(assets)
    ensures AllObjects(ImageAssets(assets))
    ensures ImageAssets(ImageAssets(assets)) == ImageAssets(assets)
  {
    if assets != [] {
      ImageAssetsIdempotent(assets[1..]);
    }
  }

  // ---------------------------------------------------------------------
  // list_favorite_images, list_all_albums, list_album_images

  /** `favorites["assets"]["items"]` is a list of assets, each with a `type`. */
  predicate FavoritesShaped(body: Json) {
    HasKey(body, "assets") && HasList(body.fields["assets"], "items")
    && AllTyped(body.fields["assets"].fields["items"].items)
  }

  function FavoriteItems(body: Json): (items: seq<Json>)
    requires FavoritesShaped(body)
    ensures AllObjects(items)
  {
    body.fields["assets"].fields["items"].items
  }

  /** `list_favorite_images`. */
  function ListFavoriteImages(x: Exchange<Json>): (r: Outcome<seq<Json>>)
    requires Ok(x) ==> FavoritesShaped(x.body)
    ensures r.Returned? <==> Ok(x)
    ensures r.Returned? ==> r.value == ImageAssets(FavoriteItems(x.body))
    ensures x.Reply? && x.status != 200 ==> r == Raised(ApiError)
    ensures x.TransportFailure? ==> r == Raised(CannotConnect)
  {
    match x
    case TransportFailure => Raised(CannotConnect)
    case Reply(status, body) =>
      if status != 200 then Raised(ApiError) else Returned(ImageAssets(FavoriteItems(body)))
  }

  /** `list_all_albums`: the decoded body, not filtered or inspected. */
  function ListAllAlbums(x: Exchange<Json>): (r: Outcome<Json>)
    ensures r.Returned? <==> Ok(x)
    ensures r.Returned? ==> r.value == x.body
    ensures x.Reply? && x.status != 200 ==> r == Raised(ApiError)
    ensures x.TransportFailure? ==> r == Raised(CannotConnect)
  {
    match x
    case TransportFailure => Raised(CannotConnect)
    case Reply(status, body) => if status != 200 then Raised(ApiError) else Returned(body)
  }

  /** `album_info["assets"]` is a list of assets, each with a `type`. */
  predicate AlbumShaped(body: Json) {
    HasList(body, "assets") && AllTyped(body.fields["assets"].items)
  }

  function AlbumItems(body: Json): (items: seq<Json>)
    requires AlbumShaped(body)
    ensures AllObjects(items)
  {
    body.fields["assets"].items
  }

  /** `list_album_images`. */
  function ListAlbumImages(x: Exchange<Json>): (r: Outcome<seq<Json>>)
    requires Ok(x) ==> AlbumShaped(x.body)
    ensures r.Returned? <==> Ok(x)
    ensures r.Returned? ==> r.value == ImageAssets(AlbumItems(x.body))
    ensures x.Reply? && x.status != 200 ==> r == Raised(ApiError)
    ensures x.TransportFailure? ==> r == Raised(CannotConnect)
  {
    match x
    case TransportFailure => Raised(CannotConnect)
    case Reply(status, body) =>
      if status != 200 then Raised(ApiError) else Returned(ImageAssets(AlbumItems(body)))
  }

  // ---------------------------------------------------------------------
  // list_memory_lane_images

  /** Each entry `item["assets"]` is a list of dicts (no `type` key needed:
      the lookup is `asset.get("type")`). */
  predicate EntryShaped(entry: Json) {
    HasList(entry, "assets") && AllObjects(entry.fields["assets"].items)
  }

  predicate MemoryLaneShaped(body: Json) {
    body.JArr? && forall e <- body.items :: EntryShaped(e)
  }

  function EntryAssets(entry: Json): (assets: seq<Json>)
    requires EntryShaped(entry)
    ensures AllObjects(assets)
  {
    entry.fields["assets"].items
  }

  /** The images of every entry, entry by entry, each in its own order. */
  function MemoryLaneAssets(entries: seq<Json>): (r: seq<Json>)
    requires forall e <- entries :: EntryShaped(e)
    ensures forall a <- r :: a.JObj? && IsImage(a)
  {
    if entries == [] then []
    else ImageAssets(EntryAssets(entries[0])) + MemoryLaneAssets(entries[1..])
  }

  lemma {:induction false} MemoryLaneAssetsAppend(s: seq<Json>, t: seq<Json>)
    requires forall e <- s :: EntryShaped(e)
    requires forall e <- t :: EntryShaped(e)
    ensures forall e <- s + t :: EntryShaped(e)
    ensures MemoryLaneAssets(s + t) == MemoryLaneAssets(s) + MemoryLaneAssets(t)
  {
    if s == [] {
      assert s + t == t;
    } else {
      assert (s + t)[1..] == s[1..] + t;
      MemoryLaneAssetsAppend(s[1..], t);
    }
  }

  /** An asset without a `type` key is skipped, not an error, and never
      reaches the result. */
  lemma {:induction false} MemoryLaneSkipsUntyped(entries: seq<Json>, a: Json)
    requires forall e <- entries :: EntryShaped(e)
    requires a.JObj? && "type" !in a.fields
    ensures a !in MemoryLaneAssets(entries)
  {
  }

  /** The memory lane is exactly the concatenation of what the album filter
      keeps of each entry: an asset appears as often as it appears as an image
      across all entries. */
  lemma {:induction false} MemoryLaneAssetsCounts(entries: seq<Json>, a: Json)
    requires forall e <- entries :: EntryShaped(e)
    ensures multiset(MemoryLaneAssets(entries))[a] == if a.JObj? && IsImage(a) then EntryCount(entries, a) else 0
  {
    if entries != [] {
      MemoryLaneAssetsCounts(entries[1..], a);
      ImageAssetsCounts(EntryAssets(entries[0]), a);
    }
  }

  /** How often `a` occurs across the asset lists of all entries. */
  function EntryCount(entries: seq<Json>, a: Json): nat
    requires forall e <- entries :: EntryShaped(e)
  {
    if entries == [] then 0 else multiset(EntryAssets(entries[0]))[a] + EntryCount(entries[1..], a)
  }

  /** Filtering one more asset appends it exactly when it is an image. */
  lemma ImageAssetsSnoc(assets: seq<Json>, j: nat)
    requires AllObjects(assets) && j < |assets|
    ensures AllObjects(assets[..j]) && AllObjects(assets[..j + 1])
    ensures ImageAssets(assets[..j + 1])
         == ImageAssets(assets[..j]) + if IsImage(assets[j]) then [assets[j]] else []
  {
    assert assets[..j + 1] == assets[..j] + [assets[j]];
    ImageAssetsAppend(assets[..j], [assets[j]]);
    assert [assets[j]][1..] == [];
  }

  /** Taking one more entry appends that entry's images. */
  lemma MemoryLaneAssetsSnoc(entries: seq<Json>, i: nat)
    requires (forall e <- entries :: EntryShaped(e)) && i < |entries|
    ensures forall e <- entries[..i] :: EntryShaped(e)
    ensures forall e <- entries[..i + 1] :: EntryShaped(e)
    ensures MemoryLaneAssets(entries[..i + 1])
         == MemoryLaneAssets(entries[..i]) + ImageAssets(EntryAssets(entries[i]))
  {
    assert entries[..i + 1] == entries[..i] + [entries[i]];
    MemoryLaneAssetsAppend(entries[..i], [entries[i]]);
    assert [entries[i]][1..] == [];
  }

  /** The outcome `list_memory_lane_images` has for an exchange. */
  function MemoryLaneResult(x: Exchange<Json>): (r: Outcome<seq<Json>>)
    requires Ok(x) ==> MemoryLaneShaped(x.body)
    ensures r.Returned? <==> Ok(x)
    ensures r.Returned? ==> r.value == MemoryLaneAssets(x.body.items)
    ensures x.Reply? && x.status != 200 ==> r == Raised(ApiError)
    ensures x.TransportFailure? ==> r == Raised(ClientError)
  {
    match x
    case TransportFailure => Raised(ClientError)
    case Reply(status, body) =>
      if status != 200 then Raised(ApiError) else Returned(MemoryLaneAssets(body.items))
  }

  /** `list_memory_lane_images`: the nested loops that append every image of
      every entry. A transport failure is not caught, so aiohttp's own error
      escapes instead of `CannotConnect`. */
  method ListMemoryLaneImages(x: Exchange<Json>) returns (r: Outcome<seq<Json>>)
    requires Ok(x) ==> MemoryLaneShaped(x.body)
    ensures r == MemoryLaneResult(x)
    ensures x.TransportFailure? ==> r == Raised(ClientError)
  {
    if x.TransportFailure? {
      return Raised(ClientError);
    }
    if x.status != 200 {
      return Raised(ApiError);
    }
    var items := x.body.items;
    var assets: seq<Json> := [];
    var i := 0;
    while i < |items|
      invariant 0 <= i <= |items|
      invariant assets == MemoryLaneAssets(items[..i])
    {
      var entryAssets := EntryAssets(items[i]);
      ghost var before := assets;
      var j := 0;
      while j < |entryAssets|
        invariant 0 <= j <= |entryAssets|
        invariant assets == before + ImageAssets(entryAssets[..j])
      {
        var asset := entryAssets[j];
        ImageAssetsSnoc(entryAssets, j);
        if Get(asset, "type") == JStr("IMAGE") {
          assets := assets + [asset];
        }
        j := j + 1;
      }
      assert entryAssets[..j] == entryAssets;
      MemoryLaneAssetsSnoc(items, i);
      i := i + 1;
    }
    assert items[..i] == items;
    r := Returned(assets);
  }

  /** The scenario of two memory-lane entries `[A]` and `[B (video), C]`:
      the result is `[A, C]`. */
  lemma MemoryLaneExample(a: Json, b: Json, c: Json)
    requires a == JObj(map["id" := JStr("A"), "type" := JStr("IMAGE")])
    requires b == JObj(map["id" := JStr("B"), "type" := JStr("VIDEO")])
    requires c == JObj(map["id" := JStr("C"), "type" := JStr("IMAGE")])
    ensures MemoryLaneAssets([JObj(map["assets" := JArr([a])]), JObj(map["assets" := JArr([b, c])])]) == [a, c]
  {
    var e1 := JObj(map["assets" := JArr([a])]);
    var e2 := JObj(map["assets" := JArr([b, c])]);
    assert EntryAssets(e1) == [a];
    assert EntryAssets(e2) == [b, c];
    assert !IsImage(b) && IsImage(a) && IsImage(c);
    assert ImageAssets([b, c]) == [c] by {
      assert ImageAssets([b, c]) == ImageAssets([c]) by { assert [b, c][1..] == [c]; }
      assert ImageAssets([c]) == [c] by { assert [c][1..] == []; }
    }
    assert ImageAssets([a]) == [a] by { assert [a][1..] == []; }
    assert [e1, e2][1..] == [e2];
    assert [e2][1..] == [];
    assert MemoryLaneAssets([e2]) == [c];
    assert MemoryLaneAssets([e1, e2]) == [a] + [c];
  }
}
